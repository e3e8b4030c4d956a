/**
  The technology vocabulary: the closed mapping from the publisher's French technology
  names to the machine codes stored with each line item, and the four codes the web front
  end knows as its technology type.
*/
module Technology {

  const EolienOnshore := "Eolien onshore"
  const Hydraulique := "Hydraulique"
  const Solaire := "Solaire"
  const Thermique := "Thermique"

  const WindEnergyOnshore := "wind_energy_onshore"
  const Hydro := "hydro"
  const Solar := "solar"
  const Thermal := "thermal"

  /** The source-language technology names and their machine codes. */
  const Mapping: map<string, string> := map[
    EolienOnshore := WindEnergyOnshore,
    Hydraulique := Hydro,
    Solaire := Solar,
    Thermique := Thermal
  ]

  /** The front end's technology type: exactly the four machine codes. */
  predicate IsTechType(t: string)
  {
    t == WindEnergyOnshore || t == Hydro || t == Solar || t == Thermal
  }

  /**
    `MAPPING.get(t, t)`: a known source name becomes its code, anything else passes
    through unchanged.
  */
  function MapTechnology(t: string): (r: string)
    ensures t in Mapping ==> IsTechType(r)
    ensures t !in Mapping ==> r == t
    ensures r !in Mapping
  {
    if t in Mapping then Mapping[t] else t
  }

  /** The mapping has exactly the four French names as keys. */
  lemma MappingKeys()
    ensures Mapping.Keys == {EolienOnshore, Hydraulique, Solaire, Thermique}
    ensures |Mapping| == 4
  {
  }

  /** Distinct source names map to distinct codes. */
  lemma MappingInjective(a: string, b: string)
    requires a in Mapping && b in Mapping && a != b
    ensures Mapping[a] != Mapping[b]
  {
  }

  /** Every code the mapping yields is one of the front end's technology codes, and every code is reached. */
  lemma MappingValuesAreTechTypes()
    ensures forall k | k in Mapping :: IsTechType(Mapping[k])
    ensures forall t :: IsTechType(t) ==> t in Mapping.Values
  {
    assert Mapping[EolienOnshore] == WindEnergyOnshore;
    assert Mapping[Hydraulique] == Hydro;
    assert Mapping[Solaire] == Solar;
    assert Mapping[Thermique] == Thermal;
  }

  /** No code is itself a key, so applying the lookup a second time changes nothing. */
  lemma {:induction false} MapTechnologyIdempotent(t: string)
    ensures MapTechnology(MapTechnology(t)) == MapTechnology(t)
  {
    var once := MapTechnology(t);
    assert once !in Mapping;
  }

  /**
    The lookup yields a technology code exactly for the four French names and for the four
    codes themselves, which pass through as they are.
  */
  lemma MapTechnologyYieldsTechType(t: string)
    ensures IsTechType(MapTechnology(t)) <==> t in Mapping || IsTechType(t)
  {
  }
}
