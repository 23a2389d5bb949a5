/** Conversion delays of the MB4052, in microseconds, as the class library's header
    defines them from the device datasheet. */
module Timing {
  /** ADC CLK high-level pulse width */
  const TWACH: nat := 5
  /** ADC CLK low-level pulse width */
  const TWACL: nat := 6
  /** CS high-level pulse width: the dead-time between two conversions */
  const CSWCS: nat := 2
  /** CS set-up time (declared, used by no routine) */
  const CSSCS: nat := 2
  /** CS hold time */
  const CSHCS: nat := 2
  /** Channel hold time (declared, used by no routine) */
  const CHHCH: nat := 2
  /** Propagation delay time (declared, used by no routine) */
  const PROPD: nat := 2
}
