/**
 * The indexed lookup service: the module-level `Indices` record as an object over a
 * DataLoader, its two build steps, and the five public lookups of `CountryLocalesMap`.
 */
module Api {

  import opened Wrappers
  import opened Geo
  import opened Indexing
  import opened Loader

  // What each lookup answers, as functions of the flat collections.

  /** The last country in source order whose stored code equals the upper-cased query. */
  function CountryByIso(countries: seq<Country>, code: string): (r: Option<Country>)
    ensures r.Some? <==> exists i :: 0 <= i < |countries| && countries[i].iso2 == ToUpper(code)
    ensures r.Some? ==> exists i :: IsLastWith(countries, CountryIso, ToUpper(code), i) && r.value == countries[i]
  {
    IndexByGet(countries, CountryIso, ToUpper(code));
    Get(IndexBy(countries, CountryIso), ToUpper(code))
  }

  /** The last state in source order with the given id. */
  function StateById(states: seq<State>, stateId: int): (r: Option<State>)
    ensures r.Some? <==> exists i :: 0 <= i < |states| && states[i].id == stateId
    ensures r.Some? ==> exists i :: IsLastWith(states, StateId, stateId, i) && r.value == states[i]
  {
    IndexByGet(states, StateId, stateId);
    Get(IndexBy(states, StateId), stateId)
  }

  /** The states of one country, in source order; empty for a country id no state names. */
  function StatesOfCountry(states: seq<State>, countryId: int): (r: seq<State>)
    ensures r == Select(states, StateCountry, countryId)
    ensures forall s :: s in r <==> s in states && s.countryId == countryId
    ensures r == [] <==> forall i :: 0 <= i < |states| ==> states[i].countryId != countryId
  {
    GroupBySelect(states, StateCountry, countryId);
    SelectMembers(states, StateCountry, countryId);
    var g := GroupBy(states, StateCountry);
    if countryId in g then g[countryId] else []
  }

  /** The cities of one state, in source order; empty for a state id no city names. */
  function CitiesOfState(cities: seq<City>, stateId: int): (r: seq<City>)
    ensures r == Select(cities, CityState, stateId)
    ensures forall c :: c in r <==> c in cities && c.stateId == stateId
    ensures r == [] <==> forall i :: 0 <= i < |cities| ==> cities[i].stateId != stateId
  {
    GroupBySelect(cities, CityState, stateId);
    SelectMembers(cities, CityState, stateId);
    var g := GroupBy(cities, CityState);
    if stateId in g then g[stateId] else []
  }

  /** Lookup by code ignores case: codes that upper-case alike find the same country. */
  lemma CountryByIsoIgnoresCase(countries: seq<Country>, a: string, b: string)
    requires ToUpper(a) == ToUpper(b)
    ensures CountryByIso(countries, a) == CountryByIso(countries, b)
    ensures CountryByIso(countries, a) == CountryByIso(countries, ToUpper(a))
  {
    ToUpperIdempotent(a);
  }

  /** A country whose stored code holds a lower-case letter is never found: the query is upper-cased, the keys are not. */
  lemma LowerCaseKeysUnreachable(countries: seq<Country>, code: string, c: Country)
    requires c in countries
    requires exists i :: 0 <= i < |c.iso2| && IsLowerAscii(c.iso2[i])
    ensures CountryByIso(countries, code) != Some(c)
  {
    ToUpperHasNoLower(code);
    var i :| 0 <= i < |c.iso2| && IsLowerAscii(c.iso2[i]);
    assert c.iso2 != ToUpper(code) by {
      if |c.iso2| == |ToUpper(code)| {
        assert !IsLowerAscii(ToUpper(code)[i]);
      }
    }
  }

  class CountryLocalesMap {
    const loader: DataLoader

    var countriesByIso2: map<string, Country>
    var countriesById: map<int, Country>
    var statesByCountryId: map<int, seq<State>>
    var statesById: map<int, State>
    var citiesByStateId: map<int, seq<City>>
    var initialized: bool

    // What the builds read from the loader: the indices are a snapshot of these.
    ghost var builtCountries: seq<Country>
    ghost var builtStates: seq<State>
    ghost var builtCities: seq<City>

    /** The country and state maps are those of one pass over the snapshot. */
    ghost predicate PrimaryBuilt()
      reads this
    {
      && countriesByIso2 == IndexBy(builtCountries, CountryIso)
      && countriesById == IndexBy(builtCountries, CountryId)
      && statesByCountryId == GroupBy(builtStates, StateCountry)
      && statesById == IndexBy(builtStates, StateId)
    }

    /**
     * The maps are built from the snapshots, and the country and state snapshots are
     * empty until the flag is set.
     */
    ghost predicate Valid()
      reads this, loader
    {
      && loader.Valid()
      && PrimaryBuilt()
      && (!initialized ==> builtCountries == [] && builtStates == [])
      && CitiesBuilt()
    }

    /** The city map is that of one pass over its snapshot, and is empty exactly when the snapshot is. */
    ghost predicate CitiesBuilt()
      reads this
    {
      citiesByStateId == GroupBy(builtCities, CityState) && (citiesByStateId == map[] <==> builtCities == [])
    }

    /** The loader events that `ensureIndices` causes from the current state. */
    ghost function PrimaryCalls(): seq<Event>
      reads this, loader
    {
      if initialized then [] else Call(loader.countries, CountriesFile) + Call(loader.states, StatesFile)
    }

    constructor (loader: DataLoader)
      requires loader.Valid()
      ensures Valid()
      ensures this.loader == loader && !initialized
      ensures countriesByIso2 == map[] && countriesById == map[] && statesByCountryId == map[]
      ensures statesById == map[] && citiesByStateId == map[]
    {
      this.loader := loader;
      countriesByIso2, countriesById := map[], map[];
      statesByCountryId, statesById := map[], map[];
      citiesByStateId := map[];
      initialized := false;
      builtCountries, builtStates, builtCities := [], [], [];
    }

    /**
     * `ensureIndices`: builds the country and state maps once, from what the two getters
     * return then; afterwards it does nothing at all.
     */
    method EnsureIndices()
      requires Valid()
      modifies this, loader
      ensures Valid() && initialized
      ensures old(initialized) ==> unchanged(this) && unchanged(loader)
      ensures !old(initialized) ==> builtCountries == old(loader.NextCountries()) && builtStates == old(loader.NextStates())
      ensures !old(initialized) ==> loader.countries == Some(builtCountries) && loader.states == Some(builtStates)
      ensures !old(initialized) ==>
                && loader.countryReads == old(loader.countryReads) + (if old(loader.countries).None? then 1 else 0)
                && loader.stateReads == old(loader.stateReads) + (if old(loader.states).None? then 1 else 0)
      ensures citiesByStateId == old(citiesByStateId) && builtCities == old(builtCities)
      ensures loader.cities == old(loader.cities) && loader.cityReads == old(loader.cityReads)
      ensures loader.history == old(loader.history) + old(PrimaryCalls())
    {
      if initialized {
        return;
      }
      BuildPrimary();
    }

    /** The body of `ensureIndices` past its flag check: both getters, both passes, then the flag. */
    method BuildPrimary()
      requires Valid() && !initialized
      modifies this, loader
      ensures Valid() && initialized
      ensures builtCountries == old(loader.NextCountries()) && builtStates == old(loader.NextStates())
      ensures loader.countries == Some(builtCountries) && loader.states == Some(builtStates)
      ensures loader.countryReads == old(loader.countryReads) + (if old(loader.countries).None? then 1 else 0)
      ensures loader.stateReads == old(loader.stateReads) + (if old(loader.states).None? then 1 else 0)
      ensures citiesByStateId == old(citiesByStateId) && builtCities == old(builtCities)
      ensures loader.cities == old(loader.cities) && loader.cityReads == old(loader.cityReads)
      ensures loader.history == old(loader.history) + Call(old(loader.countries), CountriesFile)
                                 + Call(old(loader.states), StatesFile)
    {
      var countries := loader.GetCountries();
      IndexCountries(countries);
      var states := loader.GetStates();
      IndexStates(states);
      builtCountries, builtStates := countries, states;
      initialized := true;
    }

    /** The first pass of `ensureIndices`: every country into the code and id maps, later ones overwriting. */
    method IndexCountries(countries: seq<Country>)
      requires countriesByIso2 == map[] && countriesById == map[]
      modifies this
      ensures countriesByIso2 == IndexBy(countries, CountryIso)
      ensures countriesById == IndexBy(countries, CountryId)
      ensures statesByCountryId == old(statesByCountryId) && statesById == old(statesById)
      ensures citiesByStateId == old(citiesByStateId) && initialized == old(initialized)
      ensures builtCountries == old(builtCountries) && builtStates == old(builtStates) && builtCities == old(builtCities)
    {
      for i := 0 to |countries|
        invariant countriesByIso2 == IndexBy(countries[..i], CountryIso)
        invariant countriesById == IndexBy(countries[..i], CountryId)
        invariant statesByCountryId == old(statesByCountryId) && statesById == old(statesById)
        invariant citiesByStateId == old(citiesByStateId) && initialized == old(initialized)
        invariant builtCountries == old(builtCountries) && builtStates == old(builtStates) && builtCities == old(builtCities)
      {
        var c := countries[i];
        assert countries[..i + 1][..i] == countries[..i];
        countriesByIso2 := countriesByIso2[c.iso2 := c];
        countriesById := countriesById[c.id := c];
      }
      assert countries[..|countries|] == countries;
    }

    /** The second pass: each state appended to its country's list and put into the id map. */
    method IndexStates(states: seq<State>)
      requires statesByCountryId == map[] && statesById == map[]
      modifies this
      ensures statesByCountryId == GroupBy(states, StateCountry)
      ensures statesById == IndexBy(states, StateId)
      ensures countriesByIso2 == old(countriesByIso2) && countriesById == old(countriesById)
      ensures citiesByStateId == old(citiesByStateId) && initialized == old(initialized)
      ensures builtCountries == old(builtCountries) && builtStates == old(builtStates) && builtCities == old(builtCities)
    {
      for i := 0 to |states|
        invariant statesByCountryId == GroupBy(states[..i], StateCountry)
        invariant statesById == IndexBy(states[..i], StateId)
        invariant countriesByIso2 == old(countriesByIso2) && countriesById == old(countriesById)
        invariant citiesByStateId == old(citiesByStateId) && initialized == old(initialized)
        invariant builtCountries == old(builtCountries) && builtStates == old(builtStates) && builtCities == old(builtCities)
      {
        var s := states[i];
        assert states[..i + 1][..i] == states[..i];
        if s.countryId !in statesByCountryId {
          statesByCountryId := statesByCountryId[s.countryId := []];
        }
        statesByCountryId := statesByCountryId[s.countryId := statesByCountryId[s.countryId] + [s]];
        statesById := statesById[s.id := s];
      }
      assert states[..|states|] == states;
    }

    /**
     * `ensureCityIndices`: builds the city map when it is empty. Once non-empty it does
     * nothing; while the cities read are empty it stays empty, so every call invokes the getter again.
     */
    method EnsureCityIndices()
      requires Valid()
      modifies this, loader
      ensures Valid()
      ensures citiesByStateId == GroupBy(builtCities, CityState)
      ensures builtCities != [] ==> citiesByStateId != map[]
      ensures old(citiesByStateId) != map[] ==> unchanged(this) && unchanged(loader)
      ensures old(citiesByStateId) == map[] ==>
                && builtCities == old(loader.NextCities())
                && loader.cities == Some(builtCities)
                && loader.history == old(loader.history) + Call(old(loader.cities), CitiesFile)
      ensures builtCities == [] ==>
                citiesByStateId == map[] && loader.history == old(loader.history) + Call(old(loader.cities), CitiesFile)
      ensures loader.countries == old(loader.countries) && loader.states == old(loader.states)
      ensures loader.countryReads == old(loader.countryReads) && loader.stateReads == old(loader.stateReads)
      ensures loader.cityReads == old(loader.cityReads) + (if old(citiesByStateId) == map[] && old(loader.cities).None? then 1 else 0)
      ensures initialized == old(initialized) && builtCountries == old(builtCountries) && builtStates == old(builtStates)
      ensures countriesByIso2 == old(countriesByIso2) && countriesById == old(countriesById)
      ensures statesByCountryId == old(statesByCountryId) && statesById == old(statesById)
    {
      if |citiesByStateId| > 0 {
        return;
      }

      var cities := loader.GetCities();
      IndexCities(cities);
      builtCities := cities;
      GroupByEmpty(builtCities, CityState);
    }

    /** The pass of `ensureCityIndices`: each city appended to its state's list. */
    method IndexCities(cities: seq<City>)
      requires citiesByStateId == map[]
      modifies this
      ensures citiesByStateId == GroupBy(cities, CityState)
      ensures countriesByIso2 == old(countriesByIso2) && countriesById == old(countriesById)
      ensures statesByCountryId == old(statesByCountryId) && statesById == old(statesById)
      ensures initialized == old(initialized)
      ensures builtCountries == old(builtCountries) && builtStates == old(builtStates) && builtCities == old(builtCities)
    {
      for i := 0 to |cities|
        invariant citiesByStateId == GroupBy(cities[..i], CityState)
        invariant countriesByIso2 == old(countriesByIso2) && countriesById == old(countriesById)
        invariant statesByCountryId == old(statesByCountryId) && statesById == old(statesById)
        invariant initialized == old(initialized)
        invariant builtCountries == old(builtCountries) && builtStates == old(builtStates) && builtCities == old(builtCities)
      {
        var c := cities[i];
        assert cities[..i + 1][..i] == cities[..i];
        if c.stateId !in citiesByStateId {
          citiesByStateId := citiesByStateId[c.stateId := []];
        }
        citiesByStateId := citiesByStateId[c.stateId := citiesByStateId[c.stateId] + [c]];
      }
      assert cities[..|cities|] == cities;
    }

    /**
     * All countries as the loader holds them now, same order and length (the shallow copies
     * are equal values). After a clear this can differ from what the indices were built from.
     */
    method GetAllCountries() returns (r: seq<Country>)
      requires Valid()
      modifies this, loader
      ensures Valid() && initialized
      ensures r == old(loader.NextCountries())
      ensures !old(initialized) ==> builtCountries == r
      ensures old(initialized) ==> builtCountries == old(builtCountries) && builtStates == old(builtStates)
      ensures citiesByStateId == old(citiesByStateId) && builtCities == old(builtCities)
      ensures loader.countries == Some(r)
      ensures loader.countryReads == old(loader.countryReads) + (if old(loader.countries).None? then 1 else 0)
      ensures loader.states == (if old(initialized) then old(loader.states) else Some(builtStates))
      ensures loader.stateReads == old(loader.stateReads) + (if !old(initialized) && old(loader.states).None? then 1 else 0)
      ensures loader.cities == old(loader.cities) && loader.cityReads == old(loader.cityReads)
      ensures loader.history == old(loader.history) + old(PrimaryCalls())
                                  + (if old(initialized) then old(Call(loader.countries, CountriesFile)) else [Invoked(CountriesFile)])
    {
      EnsureIndices();
      r := loader.GetCountries();
    }

    /** The snapshot's answer; the first call builds the snapshot from the loader. */
    method GetCountryByIso(iso2: string) returns (r: Option<Country>)
      requires Valid()
      modifies this, loader
      ensures Valid() && initialized
      ensures r == CountryByIso(builtCountries, iso2)
      ensures old(initialized) ==> unchanged(this) && unchanged(loader)
      ensures !old(initialized) ==> builtCountries == old(loader.NextCountries()) && builtStates == old(loader.NextStates())
      ensures !old(initialized) ==> loader.countries == Some(builtCountries) && loader.states == Some(builtStates)
      ensures loader.countryReads == old(loader.countryReads) + (if !old(initialized) && old(loader.countries).None? then 1 else 0)
      ensures loader.stateReads == old(loader.stateReads) + (if !old(initialized) && old(loader.states).None? then 1 else 0)
      ensures citiesByStateId == old(citiesByStateId) && loader.cities == old(loader.cities) && loader.cityReads == old(loader.cityReads)
      ensures loader.history == old(loader.history) + old(PrimaryCalls())
    {
      EnsureIndices();
      var code := ToUpper(iso2);
      r := if code in countriesByIso2 then Some(countriesByIso2[code]) else None;
    }

    method GetStatesOfCountry(countryId: int) returns (r: seq<State>)
      requires Valid()
      modifies this, loader
      ensures Valid() && initialized
      ensures r == StatesOfCountry(builtStates, countryId)
      ensures old(initialized) ==> unchanged(this) && unchanged(loader)
      ensures !old(initialized) ==> builtCountries == old(loader.NextCountries()) && builtStates == old(loader.NextStates())
      ensures !old(initialized) ==> loader.countries == Some(builtCountries) && loader.states == Some(builtStates)
      ensures loader.countryReads == old(loader.countryReads) + (if !old(initialized) && old(loader.countries).None? then 1 else 0)
      ensures loader.stateReads == old(loader.stateReads) + (if !old(initialized) && old(loader.states).None? then 1 else 0)
      ensures citiesByStateId == old(citiesByStateId) && loader.cities == old(loader.cities) && loader.cityReads == old(loader.cityReads)
      ensures loader.history == old(loader.history) + old(PrimaryCalls())
    {
      EnsureIndices();
      r := if countryId in statesByCountryId then statesByCountryId[countryId] else [];
    }

    method GetStateById(stateId: int) returns (r: Option<State>)
      requires Valid()
      modifies this, loader
      ensures Valid() && initialized
      ensures r == StateById(builtStates, stateId)
      ensures old(initialized) ==> unchanged(this) && unchanged(loader)
      ensures !old(initialized) ==> builtCountries == old(loader.NextCountries()) && builtStates == old(loader.NextStates())
      ensures !old(initialized) ==> loader.countries == Some(builtCountries) && loader.states == Some(builtStates)
      ensures loader.countryReads == old(loader.countryReads) + (if !old(initialized) && old(loader.countries).None? then 1 else 0)
      ensures loader.stateReads == old(loader.stateReads) + (if !old(initialized) && old(loader.states).None? then 1 else 0)
      ensures citiesByStateId == old(citiesByStateId) && loader.cities == old(loader.cities) && loader.cityReads == old(loader.cityReads)
      ensures loader.history == old(loader.history) + old(PrimaryCalls())
    {
      EnsureIndices();
      r := if stateId in statesById then Some(statesById[stateId]) else None;
    }

    /** Builds the primary maps first, then the city map, then answers from the city map. */
    method GetCitiesOfState(stateId: int) returns (r: seq<City>)
      requires Valid()
      modifies this, loader
      ensures Valid() && initialized
      ensures r == CitiesOfState(builtCities, stateId)
      ensures citiesByStateId == GroupBy(builtCities, CityState)
      ensures builtCities != [] ==> citiesByStateId != map[]
      ensures !old(initialized) ==> builtCountries == old(loader.NextCountries()) && builtStates == old(loader.NextStates())
      ensures old(initialized) ==> builtCountries == old(builtCountries) && builtStates == old(builtStates)
      ensures !old(initialized) ==> loader.countries == Some(builtCountries) && loader.states == Some(builtStates)
      ensures loader.countryReads == old(loader.countryReads) + (if !old(initialized) && old(loader.countries).None? then 1 else 0)
      ensures loader.stateReads == old(loader.stateReads) + (if !old(initialized) && old(loader.states).None? then 1 else 0)
      ensures old(initialized) ==> loader.countries == old(loader.countries) && loader.states == old(loader.states)
      ensures old(citiesByStateId) == map[] ==> builtCities == old(loader.NextCities()) && loader.cities == Some(builtCities)
      ensures old(citiesByStateId) != map[] ==> builtCities == old(builtCities) && loader.cities == old(loader.cities)
      ensures loader.cityReads == old(loader.cityReads) + (if old(citiesByStateId) == map[] && old(loader.cities).None? then 1 else 0)
      ensures loader.history == old(loader.history) + old(PrimaryCalls())
                                  + (if old(citiesByStateId) == map[] then old(Call(loader.cities, CitiesFile)) else [])
    {
      EnsureIndices();
      EnsureCityIndices();
      r := if stateId in citiesByStateId then citiesByStateId[stateId] else [];
    }
  }
}
