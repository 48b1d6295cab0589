/**
 * Clients of the two classes: what callers can conclude from the contracts alone,
 * on a one-country, one-state, one-city dataset, on a failed city file, and on a
 * countries file whose first read fails.
 */
module Scenario {

  import opened Wrappers
  import opened Geo
  import opened Loader
  import opened Api

  function Us(): Country { Country(1, "US", "United States") }
  function NewYork(): State { State(10, 1, "NY", "New York") }
  function Albany(): City { City(100, 10, "Albany") }

  /** A catalog over storage whose every read yields the one-record files. */
  method NewCatalog() returns (loader: DataLoader, catalog: CountryLocalesMap)
    ensures fresh(loader) && fresh(catalog)
    ensures catalog.Valid() && catalog.loader == loader && !catalog.initialized && catalog.citiesByStateId == map[]
    ensures forall n: nat :: loader.countrySource(n) == Records([Us()])
    ensures forall n: nat :: loader.stateSource(n) == Records([NewYork()])
    ensures forall n: nat :: loader.citySource(n) == Records([Albany()])
    ensures loader.countries == None && loader.states == None && loader.cities == None && loader.history == []
    ensures loader.countryReads == 0 && loader.stateReads == 0 && loader.cityReads == 0
  {
    loader := new DataLoader(n => Records([Us()]), n => Records([NewYork()]), n => Records([Albany()]));
    catalog := new CountryLocalesMap(loader);
  }

  method CountryLookups()
  {
    var loader, catalog := NewCatalog();
    assert ToUpper("us") == "US";
    var c := catalog.GetCountryByIso("us");
    assert catalog.builtCountries == [Us()];
    assert c == Some(Us());
    // The first lookup read the country and state files, in that order, and nothing else.
    assert loader.history == [Invoked(CountriesFile), Read(CountriesFile), Invoked(StatesFile), Read(StatesFile)];

    assert ToUpper("zz") == "ZZ";
    var missing := catalog.GetCountryByIso("zz");
    assert missing == None;
    // Lookups after the build leave the loader untouched.
    assert |loader.history| == 4;
  }

  method StateLookups()
  {
    var loader, catalog := NewCatalog();
    var states := catalog.GetStatesOfCountry(1);
    assert catalog.builtStates == [NewYork()];
    assert NewYork() in states;
    var none := catalog.GetStatesOfCountry(2);
    assert none == [];
    var s := catalog.GetStateById(10);
    assert s == Some(NewYork());
  }

  method CityLookups()
  {
    var loader, catalog := NewCatalog();
    var cities := catalog.GetCitiesOfState(10);
    assert catalog.builtCities == [Albany()];
    assert Albany() in cities;
    var noCities := catalog.GetCitiesOfState(999);
    assert noCities == [];
  }

  method ClearDoesNotResetIndices()
  {
    var loader, catalog := NewCatalog();
    var first := catalog.GetAllCountries();
    loader.ClearCache();
    // Clearing the provider does not reset the indices; getAllCountries alone reads again.
    var all := catalog.GetAllCountries();
    assert all == first == [Us()];
    assert loader.history[|loader.history| - 1] == Read(CountriesFile);
    var h := loader.history;
    assert ToUpper("Us") == "US";
    var again := catalog.GetCountryByIso("Us");
    assert again == Some(Us());
    assert loader.history == h;
  }

  /**
   * The first read of the countries file fails, the retry after a clear succeeds:
   * getAllCountries then returns the country, but the code lookup answers from the
   * empty snapshot taken at the first build, and never reads again.
   */
  method StaleIndexAfterRetry()
  {
    var loader := new DataLoader(n => if n == 0 then Missing else Records([Us()]),
                                 n => Records([]), n => Records([]));
    var catalog := new CountryLocalesMap(loader);
    var before := catalog.GetAllCountries();
    assert before == [];
    loader.ClearCache();
    var after := catalog.GetAllCountries();
    assert loader.countryReads == 2;
    assert after == [Us()];
    assert ToUpper("US") == "US";
    var c := catalog.GetCountryByIso("US");
    assert catalog.builtCountries == [];
    assert c == None;
  }

  method FailedCityFile()
  {
    var loader := new DataLoader(n => Records([]), n => Records([]), n => Missing);
    var first := loader.GetCities();
    assert first == [];
    var second := loader.GetCities();
    // The failed load is cached: the second call reads nothing.
    assert second == first;
    assert loader.history == [Invoked(CitiesFile), Read(CitiesFile), Invoked(CitiesFile)];

    var catalog := new CountryLocalesMap(loader);
    var a := catalog.GetCitiesOfState(1);
    var h := loader.history;
    var b := catalog.GetCitiesOfState(1);
    // With no cities the city index stays empty, so every lookup invokes the getter again.
    assert a == [] && b == [];
    assert loader.history == h + [Invoked(CitiesFile)];
  }

  /** Without a clear between them, a code lookup and getAllCountries answer from the same countries. */
  method LookupThenAllCountries(code: string)
  {
    var loader, catalog := NewCatalog();
    var r := catalog.GetCountryByIso(code);
    var all := catalog.GetAllCountries();
    assert r == CountryByIso(all, code);
  }

  /** After preloading and clearing, the next read of each file is its second. */
  method PreloadThenClear()
  {
    var loader := new DataLoader(n => if n == 0 then Missing else Records([Us()]),
                                 n => Records([]), n => Records([]));
    loader.PreloadAll();
    assert loader.countries == Some([]);
    loader.ClearCache();
    var cs := loader.GetCountries();
    assert loader.countryReads == 2;
    assert cs == [Us()];
  }

  /**
   * The primary build never touches the cities file: after a country lookup, the
   * first city read is still the oracle's read 0, not a later (failing) one.
   */
  method CityReadAfterPrimaryBuild()
  {
    var loader := new DataLoader(n => Records([Us()]), n => Records([NewYork()]),
                                 n => if n == 0 then Records([Albany()]) else Missing);
    var catalog := new CountryLocalesMap(loader);
    assert ToUpper("US") == "US";
    var c := catalog.GetCountryByIso("US");
    var s := catalog.GetStateById(10);
    var all := catalog.GetAllCountries();
    var states := catalog.GetStatesOfCountry(1);
    var cs := loader.GetCities();
    assert cs == [Albany()];
  }
}
