/** The size constants of the spaceship and the planet, derived from two base units. */
module Sizes {

  const HullRadius: real := 0.5
  const HullLength: real := 3.0 * HullRadius

  const HeadRadius: real := HullRadius
  const HeadLength: real := 2.0 * HullRadius

  const ShipSize: real := 1.0
  const PlanetSize: real := 5.0 * ShipSize

  /** The derived sizes evaluate exactly to the intended values. */
  lemma DerivedSizes()
    ensures HullLength == 3.0 * HullRadius == 1.5
    ensures HeadRadius == HullRadius
    ensures HeadLength == 2.0 * HullRadius == 1.0
    ensures PlanetSize == 5.0 * ShipSize == 5.0
  {
  }
}
