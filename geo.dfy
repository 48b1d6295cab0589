/**
 * The three entity kinds of the dataset and the key functions the indices use.
 * Descriptive passthrough fields (currency, region, ...) are not part of the model:
 * they are carried unchanged and never inspected.
 */
module Geo {

  datatype Country = Country(id: int, iso2: string, name: string)

  datatype State = State(id: int, countryId: int, stateCode: string, name: string)

  datatype City = City(id: int, stateId: int, name: string)

  // Key functions, passed to the generic index builders.
  function CountryIso(c: Country): string { c.iso2 }
  function CountryId(c: Country): int { c.id }
  function StateId(s: State): int { s.id }
  function StateCountry(s: State): int { s.countryId }
  function CityState(c: City): int { c.stateId }

  predicate IsLowerAscii(ch: char)
  {
    'a' <= ch <= 'z'
  }

  /** ASCII upper-casing of one character; every other character is left as it is. */
  function UpperChar(ch: char): char
  {
    if IsLowerAscii(ch) then (ch as int - 32) as char else ch
  }

  /** `String.prototype.toUpperCase`, restricted to ASCII: same length, each character upper-cased on its own. */
  function ToUpper(s: string): (r: string)
    ensures |r| == |s|
    ensures forall i :: 0 <= i < |s| ==> r[i] == UpperChar(s[i])
    decreases |s|
  {
    if s == [] then [] else [UpperChar(s[0])] + ToUpper(s[1..])
  }

  /** No lower-case ASCII letter survives ToUpper. */
  lemma ToUpperHasNoLower(s: string)
    ensures forall i :: 0 <= i < |ToUpper(s)| ==> !IsLowerAscii(ToUpper(s)[i])
  {
  }

  /** Upper-casing twice is upper-casing once. */
  lemma ToUpperIdempotent(s: string)
    ensures ToUpper(ToUpper(s)) == ToUpper(s)
  {
  }

}
