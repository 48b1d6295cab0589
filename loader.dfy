/**
 * The dataset provider: three independent memo slots, one per collection, each
 * filled from storage on first use, plus eager preload and explicit invalidation.
 */
module Loader {

  import opened Wrappers
  import opened Geo

  /**
   * What storage yields for one collection file. Reading and parsing are not
   * modelled; a missing file and a read or parse failure both degrade to `[]`.
   */
  datatype Source<T> = Missing | Unreadable | Records(items: seq<T>)

  /** `loadData`: the parsed records, or the empty sequence on any failure. */
  function LoadData<T>(src: Source<T>): seq<T>
  {
    if src.Records? then src.items else []
  }

  datatype Dataset = CountriesFile | StatesFile | CitiesFile

  /** Observable events: a getter was invoked, a file was read, the cache was cleared. */
  datatype Event = Invoked(dataset: Dataset) | Read(dataset: Dataset) | Clear

  /** The events of one getter call on a slot in the given state: a read only when the slot is empty. */
  ghost function Call<T>(slot: Option<seq<T>>, d: Dataset): seq<Event>
  {
    [Invoked(d)] + (if slot.None? then [Read(d)] else [])
  }

  /** Number of reads of file d in the whole history. */
  ghost function ReadCount(h: seq<Event>, d: Dataset): nat
    decreases |h|
  {
    if h == [] then 0
    else ReadCount(h[..|h| - 1], d) + (if h[|h| - 1] == Read(d) then 1 else 0)
  }

  /** Number of reads of file d since the most recent Clear (or since the start). */
  ghost function ReadsSinceClear(h: seq<Event>, d: Dataset): nat
    decreases |h|
  {
    if h == [] then 0
    else
      var rest := ReadsSinceClear(h[..|h| - 1], d);
      match h[|h| - 1]
      case Clear => 0
      case Read(d') => if d' == d then rest + 1 else rest
      case Invoked(_) => rest
  }

  /**
   * One slot's invariant: the read count is that of the history; a filled slot holds
   * what the latest read yielded; and the file has been read exactly once since the
   * last clear if the slot is filled, and not at all otherwise.
   */
  ghost predicate SlotValid<T>(slot: Option<seq<T>>, count: nat, src: nat -> Source<T>, h: seq<Event>, d: Dataset)
  {
    && count == ReadCount(h, d)
    && (slot.Some? ==> count > 0 && slot.value == LoadData(src(count - 1)))
    && ReadsSinceClear(h, d) == (if slot.Some? then 1 else 0)
  }

  class DataLoader {
    // Storage as an oracle: what the n-th read (counting from 0) of each file yields.
    const countrySource: nat -> Source<Country>
    const stateSource: nat -> Source<State>
    const citySource: nat -> Source<City>

    // How many times each file has been read: the oracle's position.
    var countryReads: nat
    var stateReads: nat
    var cityReads: nat

    // The cache slots; None is `null`. A loaded `[]` is Some([]) and, being truthy, stays cached.
    var countries: Option<seq<Country>>
    var states: Option<seq<State>>
    var cities: Option<seq<City>>

    ghost var history: seq<Event>

    /** What each getter would return if called now: the cached sequence, or the next read. */
    ghost function NextCountries(): seq<Country>
      reads this
    {
      if countries.Some? then countries.value else LoadData(countrySource(countryReads))
    }

    ghost function NextStates(): seq<State>
      reads this
    {
      if states.Some? then states.value else LoadData(stateSource(stateReads))
    }

    ghost function NextCities(): seq<City>
      reads this
    {
      if cities.Some? then cities.value else LoadData(citySource(cityReads))
    }

    /** Each slot agrees with its read count, its file and the history. */
    ghost predicate Valid()
      reads this
    {
      && SlotValid(countries, countryReads, countrySource, history, CountriesFile)
      && SlotValid(states, stateReads, stateSource, history, StatesFile)
      && SlotValid(cities, cityReads, citySource, history, CitiesFile)
    }

    constructor (countrySource: nat -> Source<Country>, stateSource: nat -> Source<State>, citySource: nat -> Source<City>)
      ensures Valid()
      ensures this.countrySource == countrySource && this.stateSource == stateSource && this.citySource == citySource
      ensures countries == None && states == None && cities == None
      ensures countryReads == 0 && stateReads == 0 && cityReads == 0
      ensures history == []
    {
      this.countrySource := countrySource;
      this.stateSource := stateSource;
      this.citySource := citySource;
      countryReads, stateReads, cityReads := 0, 0, 0;
      countries, states, cities := None, None, None;
      history := [];
    }

    method GetCountries() returns (r: seq<Country>)
      requires Valid()
      modifies this
      ensures Valid()
      ensures r == old(NextCountries())
      ensures old(countries).Some? ==> r == old(countries).value
      ensures old(countries).None? ==> r == LoadData(countrySource(old(countryReads)))
      ensures old(countries).None? && !countrySource(old(countryReads)).Records? ==> r == [] && countries == Some([])
      ensures countries == Some(r)
      ensures countryReads == old(countryReads) + (if old(countries).None? then 1 else 0)
      ensures states == old(states) && cities == old(cities)
      ensures stateReads == old(stateReads) && cityReads == old(cityReads)
      ensures history == old(history) + Call(old(countries), CountriesFile)
    {
      Record(Invoked(CountriesFile));
      if countries.None? {
        FillCountries();
      }
      r := countries.value;
    }

    /** The miss path of the getter above: one read of the file, cached as is. */
    method FillCountries()
      requires Valid() && countries.None?
      modifies this
      ensures Valid()
      ensures countries == Some(LoadData(countrySource(old(countryReads))))
      ensures countryReads == old(countryReads) + 1
      ensures states == old(states) && cities == old(cities)
      ensures stateReads == old(stateReads) && cityReads == old(cityReads)
      ensures history == old(history) + [Read(CountriesFile)]
    {
      Record(Read(CountriesFile));
      countries := Some(LoadData(countrySource(countryReads)));
      countryReads := countryReads + 1;
    }

    method GetStates() returns (r: seq<State>)
      requires Valid()
      modifies this
      ensures Valid()
      ensures r == old(NextStates())
      ensures old(states).Some? ==> r == old(states).value
      ensures old(states).None? ==> r == LoadData(stateSource(old(stateReads)))
      ensures old(states).None? && !stateSource(old(stateReads)).Records? ==> r == [] && states == Some([])
      ensures states == Some(r)
      ensures stateReads == old(stateReads) + (if old(states).None? then 1 else 0)
      ensures countries == old(countries) && cities == old(cities)
      ensures countryReads == old(countryReads) && cityReads == old(cityReads)
      ensures history == old(history) + Call(old(states), StatesFile)
    {
      Record(Invoked(StatesFile));
      if states.None? {
        FillStates();
      }
      r := states.value;
    }

    /** The miss path of the getter above: one read of the file, cached as is. */
    method FillStates()
      requires Valid() && states.None?
      modifies this
      ensures Valid()
      ensures states == Some(LoadData(stateSource(old(stateReads))))
      ensures stateReads == old(stateReads) + 1
      ensures countries == old(countries) && cities == old(cities)
      ensures countryReads == old(countryReads) && cityReads == old(cityReads)
      ensures history == old(history) + [Read(StatesFile)]
    {
      Record(Read(StatesFile));
      states := Some(LoadData(stateSource(stateReads)));
      stateReads := stateReads + 1;
    }

    method GetCities() returns (r: seq<City>)
      requires Valid()
      modifies this
      ensures Valid()
      ensures r == old(NextCities())
      ensures old(cities).Some? ==> r == old(cities).value
      ensures old(cities).None? ==> r == LoadData(citySource(old(cityReads)))
      ensures old(cities).None? && !citySource(old(cityReads)).Records? ==> r == [] && cities == Some([])
      ensures cities == Some(r)
      ensures cityReads == old(cityReads) + (if old(cities).None? then 1 else 0)
      ensures countries == old(countries) && states == old(states)
      ensures countryReads == old(countryReads) && stateReads == old(stateReads)
      ensures history == old(history) + Call(old(cities), CitiesFile)
    {
      Record(Invoked(CitiesFile));
      if cities.None? {
        FillCities();
      }
      r := cities.value;
    }

    /** The miss path of the getter above: one read of the file, cached as is. */
    method FillCities()
      requires Valid() && cities.None?
      modifies this
      ensures Valid()
      ensures cities == Some(LoadData(citySource(old(cityReads))))
      ensures cityReads == old(cityReads) + 1
      ensures countries == old(countries) && states == old(states)
      ensures countryReads == old(countryReads) && stateReads == old(stateReads)
      ensures history == old(history) + [Read(CitiesFile)]
    {
      Record(Read(CitiesFile));
      cities := Some(LoadData(citySource(cityReads)));
      cityReads := cityReads + 1;
    }

    /** Warms up all three slots; once they are all filled it reads nothing. */
    method PreloadAll()
      requires Valid()
      modifies this
      ensures Valid()
      ensures countries == Some(old(NextCountries())) && states == Some(old(NextStates())) && cities == Some(old(NextCities()))
      ensures countryReads == old(countryReads) + (if old(countries).None? then 1 else 0)
      ensures stateReads == old(stateReads) + (if old(states).None? then 1 else 0)
      ensures cityReads == old(cityReads) + (if old(cities).None? then 1 else 0)
      ensures history == old(history) + Call(old(countries), CountriesFile)
                           + Call(old(states), StatesFile) + Call(old(cities), CitiesFile)
      ensures old(countries).Some? && old(states).Some? && old(cities).Some? ==>
                countries == old(countries) && states == old(states) && cities == old(cities) &&
                countryReads == old(countryReads) && stateReads == old(stateReads) && cityReads == old(cityReads) &&
                history == old(history) + [Invoked(CountriesFile), Invoked(StatesFile), Invoked(CitiesFile)]
    {
      var _ := GetCountries();
      var _ := GetStates();
      var _ := GetCities();
    }

    /** Empties all three slots; the next call of each getter reads its file again. */
    method ClearCache()
      requires Valid()
      modifies this
      ensures Valid()
      ensures countries == None && states == None && cities == None
      ensures countryReads == old(countryReads) && stateReads == old(stateReads) && cityReads == old(cityReads)
      ensures history == old(history) + [Clear]
    {
      countries, states, cities := None, None, None;
      Record(Clear);
    }

    /** Appends one event to the ghost history, leaving the slots alone. */
    ghost method Record(e: Event)
      modifies this`history
      ensures history == old(history) + [e]
      ensures forall d :: ReadCount(history, d) == ReadCount(old(history), d) + (if e == Read(d) then 1 else 0)
      ensures forall d :: ReadsSinceClear(history, d) ==
                match e
                case Clear => 0
                case Read(d') => if d' == d then ReadsSinceClear(old(history), d) + 1 else ReadsSinceClear(old(history), d)
                case Invoked(_) => ReadsSinceClear(old(history), d)
    {
      assert (history + [e])[..|history|] == history;
      history := history + [e];
    }
  }
}
