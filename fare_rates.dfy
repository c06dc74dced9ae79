/**
 * The static rate table the fare route reads: for each vehicle category and
 * each provider a base fare and a per-kilometre rate, once for local trips
 * and once more under the `intercity` key.
 */
module FareRates {

  datatype RateEntry = RateEntry(baseFare: real, perKm: real)

  type RateSection = map<string, map<string, RateEntry>>

  /** The category and provider lists the fare route walks, in its order. */
  const Categories: seq<string> := ["bike", "auto", "cab"]
  const Services: seq<string> := ["obeer", "radipoo", "yela"]

  /** The top-level entries of the table. */
  const Local: RateSection := map[
    "bike" := map["obeer" := RateEntry(10.0, 4.8), "radipoo" := RateEntry(10.0, 5.0), "yela" := RateEntry(10.0, 5.2)],
    "auto" := map["obeer" := RateEntry(20.0, 9.5), "radipoo" := RateEntry(20.0, 10.0), "yela" := RateEntry(20.0, 10.5)],
    "cab" := map["obeer" := RateEntry(30.0, 14.5), "radipoo" := RateEntry(30.0, 15.0), "yela" := RateEntry(30.0, 15.5)]
  ]

  /** The entries under the table's `intercity` key. */
  const Intercity: RateSection := map[
    "bike" := map["obeer" := RateEntry(10.0, 4.2), "radipoo" := RateEntry(10.0, 4.5), "yela" := RateEntry(10.0, 4.8)],
    "auto" := map["obeer" := RateEntry(20.0, 8.5), "radipoo" := RateEntry(20.0, 9.0), "yela" := RateEntry(20.0, 9.5)],
    "cab" := map["obeer" := RateEntry(30.0, 12.5), "radipoo" := RateEntry(30.0, 13.0), "yela" := RateEntry(30.0, 13.5)]
  ]

  /** Every category of the route has an entry for every provider. */
  predicate Covers(section: RateSection) {
    forall c, p :: c in Categories && p in Services ==> c in section && p in section[c]
  }

  predicate IsCategory(c: string) { c in Categories }
  predicate IsService(p: string) { p in Services }

  lemma TableCoverage()
    ensures Covers(Local) && Covers(Intercity)
  {
  }

  /** The entry the route uses for one (category, provider) pair: the
      `intercity` section when the trip is intercity, else the top level. */
  function Rate(intercity: bool, category: string, service: string): (e: RateEntry)
    requires IsCategory(category) && IsService(service)
    ensures e.baseFare == BaseFare(category)
    ensures e.baseFare > 0.0 && e.perKm > 0.0
  {
    TableCoverage();
    if intercity then Intercity[category][service] else Local[category][service]
  }

  /** The base fare of a category: 10, 20 and 30 for bike, auto and cab. */
  function BaseFare(category: string): real
    requires IsCategory(category)
  {
    if category == "bike" then 10.0 else if category == "auto" then 20.0 else 30.0
  }

  /** Intercity kilometres are cheaper than local ones for every pair. */
  lemma IntercityCheaper(category: string, service: string)
    requires IsCategory(category) && IsService(service)
    ensures Rate(true, category, service).perKm < Rate(false, category, service).perKm
  {
  }

  /** Within a category and mode the per-km rate rises along the provider
      list: obeer, then radipoo, then yela. */
  lemma PerKmRisesAlongServices(intercity: bool, category: string, i: nat, j: nat)
    requires IsCategory(category) && i < j < |Services|
    ensures Rate(intercity, category, Services[i]).perKm < Rate(intercity, category, Services[j]).perKm
  {
  }

  /** For a fixed provider and mode the per-km rate rises along the category
      list: bike, then auto, then cab. */
  lemma PerKmRisesAlongCategories(intercity: bool, service: string, i: nat, j: nat)
    requires IsService(service) && i < j < |Categories|
    ensures Rate(intercity, Categories[i], service).perKm < Rate(intercity, Categories[j], service).perKm
  {
  }
}
