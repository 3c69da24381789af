/** src/components/planet.rs: the parameters of the orbiting body, their
    update from the input sliders and the choice of a preset. */
module Planet {
  import opened Int8Cast
  import opened Presets
  import opened GravitationalAcceleration

  datatype Option<T> = None | Some(value: T)

  /** Metres in one astronomical unit, as the calculator uses it. */
  const MetresPerAu: real := 1.496e11

  /** The sun's mass in kg. */
  const SunMass: real := 1.988416e30

  /** The Earth's mass in kg. */
  const EarthMass: real := 5.972168e24

  /** A snapshot of a planet's parameters: the semi-major axis both as typed
      (AU) and in metres, the eccentricity, the object's mass and diameter as
      Earth ratios, and the fixed physical constants. */
  datatype PlanetValues = PlanetValues(aInput: real, a: real, e: real, mSun: real, mObject: real,
                                       mEarth: real, d: real, dEarth: real, g: real)

  /** The values PlanetData::new gives a planet: the arguments, with the
      axis kept in AU and stored in metres (so a positive axis stays
      positive), and the fixed constants. */
  function NewPlanetValues(aNew: real, eNew: real, mObjectNew: real, dNew: real): (p: PlanetValues)
    ensures p.aInput == aNew && p.e == eNew && p.mObject == mObjectNew && p.d == dNew
    ensures InMetres(p)
    ensures (p.a > 0.0) == (aNew > 0.0)
  {
    PlanetValues(aNew, aNew * MetresPerAu, eNew, SunMass, mObjectNew, EarthMass, dNew, EarthDiameterKm, GravitationalConstant)
  }

  /** A freshly built planet keeps the typed axis in AU and stores it in
      metres; the constants do not depend on the arguments. */
  lemma NewPlanetUnits(aNew: real, eNew: real, mObjectNew: real, dNew: real)
    ensures var p := NewPlanetValues(aNew, eNew, mObjectNew, dNew);
      p.a / MetresPerAu == p.aInput == aNew
      && p.mSun == 1.988416e30 && p.mEarth == 5.972168e24 && p.dEarth == 12742.46 && p.g == 6.6743e-11
  {
  }

  /** `parse::<f64>().unwrap_or(0.0)`: text that does not parse counts as 0. */
  function ValueOrZero(input: Option<real>): (v: real)
    ensures input.Some? ==> v == input.value
    ensures input.None? ==> v == 0.0
  {
    match input
    case Some(x) => x
    case None => 0.0
  }

  /** The axis in metres is the typed axis in AU converted. */
  predicate InMetres(p: PlanetValues) {
    p.a == p.aInput * MetresPerAu
  }

  /** The effect of update_planet_data on the values: slider 0 sets the axis
      (in AU and in metres together), 1 the eccentricity, 2 the mass and 3
      the diameter; any other index changes nothing.  The constants never
      change, and the two copies of the axis stay consistent. */
  function Updated(p: PlanetValues, value: real, index: Int8): (q: PlanetValues)
    ensures q.mSun == p.mSun && q.mEarth == p.mEarth && q.dEarth == p.dEarth && q.g == p.g
    ensures InMetres(p) ==> InMetres(q)
  {
    if index == 0 then p.(aInput := value, a := value * MetresPerAu)
    else if index == 1 then p.(e := value)
    else if index == 2 then p.(mObject := value)
    else if index == 3 then p.(d := value)
    else p
  }

  /** An index outside 0..3 leaves every field as it was. */
  lemma UpdateOutOfRange(p: PlanetValues, value: real, index: Int8)
    requires index < 0 || index > 3
    ensures Updated(p, value, index) == p
  {
  }

  /** An update changes exactly the field its index names: the new value is
      read back from that field and all other fields are unchanged. */
  lemma UpdateChangesOneField(p: PlanetValues, value: real, index: Int8)
    requires 0 <= index <= 3
    ensures var q := Updated(p, value, index);
      && q.mSun == p.mSun && q.mEarth == p.mEarth && q.dEarth == p.dEarth && q.g == p.g
      && (index == 0 ==> q.aInput == value && q.a == value * MetresPerAu && q.e == p.e && q.mObject == p.mObject && q.d == p.d)
      && (index == 1 ==> q.e == value && q.aInput == p.aInput && q.a == p.a && q.mObject == p.mObject && q.d == p.d)
      && (index == 2 ==> q.mObject == value && q.aInput == p.aInput && q.a == p.a && q.e == p.e && q.d == p.d)
      && (index == 3 ==> q.d == value && q.aInput == p.aInput && q.a == p.a && q.e == p.e && q.mObject == p.mObject)
  {
  }

  /** A second update of the same slider overrides the first. */
  lemma UpdateOverrides(p: PlanetValues, v1: real, v2: real, index: Int8)
    ensures Updated(Updated(p, v1, index), v2, index) == Updated(p, v2, index)
  {
  }

  /** Updates of two different sliders commute. */
  lemma UpdatesCommute(p: PlanetValues, v1: real, i1: Int8, v2: real, i2: Int8)
    requires i1 != i2
    ensures Updated(Updated(p, v1, i1), v2, i2) == Updated(Updated(p, v2, i2), v1, i1)
  {
  }

  /** Moving a slider on a fresh planet gives the planet built with the new
      value in that place. */
  lemma UpdateOfNewPlanet(aNew: real, eNew: real, mNew: real, dNew: real, value: real)
    ensures Updated(NewPlanetValues(aNew, eNew, mNew, dNew), value, 0) == NewPlanetValues(value, eNew, mNew, dNew)
    ensures Updated(NewPlanetValues(aNew, eNew, mNew, dNew), value, 1) == NewPlanetValues(aNew, value, mNew, dNew)
    ensures Updated(NewPlanetValues(aNew, eNew, mNew, dNew), value, 2) == NewPlanetValues(aNew, eNew, value, dNew)
    ensures Updated(NewPlanetValues(aNew, eNew, mNew, dNew), value, 3) == NewPlanetValues(aNew, eNew, mNew, value)
  {
  }

  /** PlanetData: the reactive parameters of the orbiting body.  The axis,
      eccentricity, mass and diameter are signals that update_planet_data
      sets in place; the constants are plain fields. */
  class PlanetData {
    var aInput: real
    var a: real
    var e: real
    var mObject: real
    var d: real
    const mSun: real
    const mEarth: real
    const dEarth: real
    const g: real

    function Values(): PlanetValues
      reads this
    {
      PlanetValues(aInput, a, e, mSun, mObject, mEarth, d, dEarth, g)
    }

    /** PlanetData::new */
    constructor (aNew: real, eNew: real, mObjectNew: real, dNew: real)
      ensures Values() == NewPlanetValues(aNew, eNew, mObjectNew, dNew)
    {
      a := aNew * MetresPerAu;
      e := eNew;
      aInput := aNew;
      mObject := mObjectNew;
      d := dNew;
      mSun := SunMass;
      mEarth := EarthMass;
      dEarth := EarthDiameterKm;
      g := GravitationalConstant;
    }

    /** update_planet_data: parse the slider text (0 if it does not parse),
      set the field the index names, then publish the planet again, whatever
      the index. */
    method UpdatePlanetData(signal: PlanetSignal, input: Option<real>, index: Int8)
      modifies this, signal
      ensures Values() == Updated(old(Values()), ValueOrZero(input), index)
      ensures signal.planet == this && signal.version == old(signal.version) + 1
    {
      var value := ValueOrZero(input);
      if index == 0 {
        aInput := value;
        a := value * MetresPerAu;
      } else if index == 1 {
        e := value;
      } else if index == 2 {
        mObject := value;
      } else if index == 3 {
        d := value;
      }
      signal.Set(this);
    }
  }

  /** create_planet */
  method CreatePlanet(aNew: real, eNew: real, mNew: real, dNew: real) returns (p: PlanetData)
    ensures fresh(p) && p.Values() == NewPlanetValues(aNew, eNew, mNew, dNew)
  {
    p := new PlanetData(aNew, eNew, mNew, dNew);
  }

  /** The write side of the planet signal: set replaces the planet and
      notifies every subscriber (counted by version). */
  class PlanetSignal {
    var planet: PlanetData
    var version: nat

    constructor (p: PlanetData)
      ensures planet == p && version == 0
    {
      planet := p;
      version := 0;
    }

    method Set(p: PlanetData)
      modifies this
      ensures planet == p && version == old(version) + 1
    {
      planet := p;
      version := version + 1;
    }
  }

  /** The all-zero preset with an empty name that stands in for an index
      past the end of the table. */
  const ZeroPreset: PlanetPreset := PlanetPreset("", 0.0, 0.0, 0.0, 0.0)

  /** `presets.get(index - 1)` with the zero fallback: option k >= 1 of the
      select is preset k - 1. */
  function PresetFor(index: nat): (p: PlanetPreset)
    requires index >= 1
    ensures index <= 17 ==> p == LoadPresets()[index - 1]
    ensures index > 17 ==> p == ZeroPreset
  {
    var presets := LoadPresets();
    if index - 1 < |presets| then presets[index - 1] else ZeroPreset
  }

  /** Every option the select offers (1..17) yields a closed orbit of a body
      with positive diameter; only an index past the table yields the zero
      preset, whose axis and diameter are 0. */
  lemma PresetForIsBound(index: nat)
    requires index >= 1
    ensures index <= 17 ==> PresetFor(index).a > 0.0 && 0.0 <= PresetFor(index).e < 1.0 && PresetFor(index).d > 0.0
    ensures index > 17 ==> PresetFor(index).a == 0.0 && PresetFor(index).d == 0.0
  {
  }

  /** The parameters the preset handler builds a planet from: the sliders
      for option 0 (or text that does not parse as an index), otherwise the
      preset. */
  function ChosenParameters(choice: Option<nat>, sliderA: real, sliderE: real, sliderM: real, sliderD: real): (p: PlanetPreset)
    ensures choice == None || choice == Some(0) ==> p == PlanetPreset("", sliderM, sliderD, sliderA, sliderE)
    ensures choice.Some? && 1 <= choice.value <= 17 ==>
      p == LoadPresets()[choice.value - 1] && p.a > 0.0 && 0.0 <= p.e < 1.0 && p.d > 0.0
    ensures choice.Some? && choice.value > 17 ==> p == ZeroPreset
  {
    var index := match choice case Some(k) => k case None => 0;
    if index == 0 then PlanetPreset("", sliderM, sliderD, sliderA, sliderE)
    else PresetFor(index)
  }

  /** A parsed option k >= 1 ignores the sliders entirely. */
  lemma PresetIgnoresSliders(k: nat, a1: real, e1: real, m1: real, d1: real, a2: real, e2: real, m2: real, d2: real)
    requires k >= 1
    ensures ChosenParameters(Some(k), a1, e1, m1, d1) == ChosenParameters(Some(k), a2, e2, m2, d2) == PresetFor(k)
  {
  }

  /** The preset selector: whether the sliders are greyed out, and the
      planet signal it writes. */
  class PresetSelector {
    var slidersInactive: bool
    const signal: PlanetSignal

    constructor (s: PlanetSignal)
      ensures signal == s && !slidersInactive
    {
      signal := s;
      slidersInactive := false;
    }

    /** The select's change handler: option 0 re-enables the sliders and
        builds the planet from their values; any other option greys them out
        and builds the planet from the preset. */
    method SelectPreset(choice: Option<nat>, sliderA: real, sliderE: real, sliderM: real, sliderD: real)
      modifies this, signal
      ensures slidersInactive == (choice.Some? && choice.value != 0)
      ensures fresh(signal.planet) && signal.version == old(signal.version) + 1
      ensures var p := ChosenParameters(choice, sliderA, sliderE, sliderM, sliderD);
        signal.planet.Values() == NewPlanetValues(p.a, p.e, p.m, p.d)
    {
      var index := match choice case Some(k) => k case None => 0;
      var planet;
      if index == 0 {
        slidersInactive := false;
        planet := CreatePlanet(sliderA, sliderE, sliderM, sliderD);
      } else {
        slidersInactive := true;
        var preset := PresetFor(index);
        planet := CreatePlanet(preset.a, preset.e, preset.m, preset.d);
      }
      signal.Set(planet);
    }
  }
}
