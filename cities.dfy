/** The country-to-city catalog behind the city selector. */
module Cities {

  /** Each country's cities, in display order. */
  const CityData: map<string, seq<string>> := map[
    "Bangladesh" := ["Dhaka", "Chittagong", "Khulna", "Rajshahi", "Sylhet"],
    "United States" := ["New York", "Los Angeles", "Chicago", "Houston", "Phoenix"],
    "Australia" := ["Sydney", "Melbourne", "Brisbane", "Perth", "Adelaide"],
    "Canada" := ["Toronto", "Vancouver", "Montreal", "Calgary", "Ottawa"],
    "India" := ["Delhi", "Mumbai", "Bangalore", "Hyderabad", "Chennai"]
  ]

  /**
   * The cities listed for `country`: its catalog entry when the selection is
   * non-empty and in the catalog, and no cities otherwise.
   */
  function CitiesOf(country: string): (cities: seq<string>)
    ensures country in CityData ==> cities == CityData[country]
    ensures country !in CityData ==> cities == []
  {
    if country != "" && country in CityData then CityData[country] else []
  }

  /**
   * The catalog has no entry for the empty selection (the placeholder option), and
   * every catalog country lists five cities.
   */
  lemma CatalogShape()
    ensures "" !in CityData
    ensures forall c :: c in CityData ==> |CityData[c]| == 5
  {
  }
}
