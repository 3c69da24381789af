/** src/utils/presets.rs: the table of solar-system bodies offered as
    presets.  Masses and diameters are ratios of the Earth's, semi-major
    axes are in AU; a mass of 0 stands for an unknown mass. */
module Presets {

  datatype PlanetPreset = PlanetPreset(name: string, m: real, d: real, a: real, e: real)

  /** load_presets: the seventeen bodies from Mercury to 2014 FE72, in
      order.  Every entry is a closed orbit (a > 0, 0 <= e < 1) of a body of
      positive diameter and non-negative mass; exactly the last three
      (Sedna, Leleakuhonua, 2014 FE72) have unknown mass; the Earth, the
      reference body, is the third entry. */
  function LoadPresets(): (ps: seq<PlanetPreset>)
    ensures |ps| == 17
    ensures forall i :: 0 <= i < |ps| ==> ps[i].a > 0.0 && 0.0 <= ps[i].e < 1.0
    ensures forall i :: 0 <= i < |ps| ==> ps[i].d > 0.0 && ps[i].m >= 0.0
    ensures forall i :: 0 <= i < |ps| ==> (ps[i].m == 0.0 <==> i >= 14)
    ensures ps[2] == PlanetPreset("Earth", 1.0, 1.0, 1.0, 0.017)
  {
    [
      PlanetPreset("Mercury", 0.0553, 0.383, 0.387, 0.206),
      PlanetPreset("Venus", 0.0553, 0.949, 0.72, 0.007),
      PlanetPreset("Earth", 1.0, 1.0, 1.00, 0.017),
      PlanetPreset("Mars", 0.107, 0.532, 1.51, 0.094),
      PlanetPreset("Jupiter", 317.8, 11.21, 5.19, 0.049),
      PlanetPreset("Saturn", 95.2, 9.45, 9.54, 0.052),
      PlanetPreset("Uranus", 14.5, 4.01, 19.18, 0.047),
      PlanetPreset("Neptune", 17.1, 3.88, 30.08, 0.01),
      PlanetPreset("Pluto", 0.0022, 0.187, 39.08, 0.244),
      PlanetPreset("Haumea", 0.00066, 0.125, 43.10, 0.2),
      PlanetPreset("Quaoar", 0.0002, 0.0852, 43.33, 0.04),
      PlanetPreset("Makemake", 0.000519, 0.112, 45.50, 0.16),
      PlanetPreset("Gonggong", 0.000293, 0.0965, 67.07, 0.5),
      PlanetPreset("Eris", 0.0027, 0.183, 67.84, 0.43),
      PlanetPreset("Sedna", 0.0, 0.0781, 506.0, 0.85),
      PlanetPreset("Leleākūhonua", 0.0, 0.0173, 1089.65, 0.952),
      PlanetPreset("2014 FE72", 0.0, 0.0212, 2044.34, 0.983)
    ]
  }

  /** The most eccentric preset is 2014 FE72 with e = 0.983. */
  lemma MaxEccentricity()
    ensures forall i :: 0 <= i < 17 ==> LoadPresets()[i].e <= 0.983
    ensures LoadPresets()[16].e == 0.983 && LoadPresets()[16].name == "2014 FE72"
  {
  }

  /** No two presets share a name, so a name identifies its entry. */
  lemma DistinctNames()
    ensures forall i, j :: 0 <= i < j < 17 ==> LoadPresets()[i].name != LoadPresets()[j].name
  {
  }
}
