/** The binary sensors (the drying and bypass servos): keys of `summary`. */
module BinarySensor {
  import opened Python
  import opened Futura

  /** The binary sensors the platform creates. */
  const BinarySensorIds := ["current_servo_drying", "current_servo_bypass"]

  /** `is_on`: the raw `summary[idx]`, returned unchanged rather than
      converted to a bool; KeyError when absent. */
  function IsOn(d: Device, idx: string): (r: Result<Value>)
    ensures r.Ok? <==> idx in d.summary
    ensures r.Ok? ==> r.value == d.summary[idx]
    ensures r.Err? ==> r.error == KeyError
  {
    Lookup(d.summary, idx)
  }

  /** `available`: exactly when reading `is_on` does not raise. */
  function Available(d: Device, idx: string): (r: bool)
    ensures r <==> IsOn(d, idx).Ok?
  {
    idx in d.summary
  }
}
