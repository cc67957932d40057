/** The sensor entities: summary sensors read a key of `summary`,
    periphery sensors the first periphery record with their id. */
module Sensor {
  import opened Python
  import opened Futura

  /** The summary sensors the platform creates. */
  const SummarySensorIds := ["filter_health", "device_consumption", "heating_recovered_current"]
  /** The periphery sensors the platform creates. */
  const PeripherySensorIds := ["fut_co2_ppm_max", "fut_humi_indoor", "fut_temp_indoor", "fut_temp_outdoor"]

  // ---------------------------------------------------------------------
  // Summary sensors

  /** `native_value`: `summary[idx]`, KeyError when absent. */
  function SummaryValue(d: Device, idx: string): (r: Result<Value>)
    ensures r.Ok? <==> idx in d.summary
    ensures r.Ok? ==> r.value == d.summary[idx]
    ensures r.Err? ==> r.error == KeyError
  {
    Lookup(d.summary, idx)
  }

  /** `available`: exactly when reading the value does not raise. */
  function SummaryAvailable(d: Device, idx: string): (r: bool)
    ensures r <==> SummaryValue(d, idx).Ok?
  {
    idx in d.summary
  }

  /** `native_unit_of_measurement`: `summary[idx + "_units"]`. */
  function SummaryUnit(d: Device, idx: string): (r: Result<Value>)
    ensures r.Ok? <==> idx + "_units" in d.summary
    ensures r.Ok? ==> r.value == d.summary[idx + "_units"]
    ensures r.Err? ==> r.error == KeyError
  {
    Lookup(d.summary, idx + "_units")
  }

  // ---------------------------------------------------------------------
  // Periphery sensors

  /** `periphery`: the first periphery whose id is `idx`, or None. */
  function Periphery(d: Device, idx: string): (r: Option<Record>)
    ensures r.None? <==> forall j :: 0 <= j < |d.peripheries| ==> d.peripheries[j].id != Str(idx)
    ensures forall i :: IsFirstWithId(d.peripheries, idx, i) ==> r == Some(d.peripheries[i])
  {
    match FirstWithId(d.peripheries, idx)
    case None => None
    case Some(i) =>
      assert forall k :: IsFirstWithId(d.peripheries, idx, k) ==> k == i;
      Some(d.peripheries[i])
  }

  /** `available`: some periphery carries the id. */
  function PeripheryAvailable(d: Device, idx: string): (r: bool)
    ensures r <==> exists i :: 0 <= i < |d.peripheries| && d.peripheries[i].id == Str(idx)
  {
    Periphery(d, idx).Some?
  }

  /** The nearest multiple of 0.1, ties to the even multiple. */
  function RoundTenth(x: real): (y: real)
    ensures -0.05 <= y - x <= 0.05
    ensures (y * 10.0).Floor as real == y * 10.0
  {
    var t := x * 10.0;
    var f := t.Floor;
    var frac := t - f as real;
    var n := if frac < 0.5 then f else if frac > 0.5 then f + 1 else if f % 2 == 0 then f else f + 1;
    assert -0.5 <= n as real - t <= 0.5;
    assert (n as real / 10.0) * 10.0 == n as real;
    n as real / 10.0
  }

  /** `round(v, 1)`: ints come back unchanged (a bool as its int), floats
      rounded to a tenth; other kinds raise TypeError. */
  function Round1(v: Value): (r: Result<Value>)
    ensures v.Int? ==> r == Ok(v)
    ensures v.Bool? ==> r == Ok(Int(BoolInt(v.b)))
    ensures v.Float? ==> r.Ok? && r.value.Float? && -0.05 <= r.value.r - v.r <= 0.05
    ensures r.Ok? <==> v.Int? || v.Float? || v.Bool?
    ensures r.Err? ==> r.error == TypeError
  {
    match v
    case Int(_) => Ok(v)
    case Bool(b) => Ok(Int(BoolInt(b)))
    case Float(x) => Ok(Float(RoundTenth(x)))
    case _ => Err(TypeError)
  }

  /** `native_value`: the periphery's value rounded, or None when the value
      is falsy. Without a periphery the subscript of None raises TypeError. */
  function PeripheryValue(d: Device, idx: string): (r: Result<Option<Value>>)
    ensures Periphery(d, idx).None? ==> r == Err(TypeError)
    ensures Periphery(d, idx).Some? && "value" !in Periphery(d, idx).value.props ==> r == Err(KeyError)
    ensures Periphery(d, idx).Some? && "value" in Periphery(d, idx).value.props ==>
              var v := Periphery(d, idx).value.props["value"];
              && (!Truthy(v) ==> r == Ok(None))
              && (Truthy(v) ==> (r.Ok? <==> Round1(v).Ok?) && (r.Ok? ==> r == Ok(Some(Round1(v).value))))
  {
    match Periphery(d, idx)
    case None => Err(TypeError)
    case Some(p) =>
      var v :- Lookup(p.props, "value");
      if Truthy(v) then
        var w :- Round1(v);
        Ok(Some(w))
      else Ok(None)
  }

  /** `native_unit_of_measurement`: the matched periphery's `units`. */
  function PeripheryUnit(d: Device, idx: string): (r: Result<Value>)
    ensures Periphery(d, idx).None? ==> r == Err(TypeError)
    ensures Periphery(d, idx).Some? ==> r == Lookup(Periphery(d, idx).value.props, "units")
  {
    match Periphery(d, idx)
    case None => Err(TypeError)
    case Some(p) => Lookup(p.props, "units")
  }

  /** A zero reading is indistinguishable from no reading: an available
      periphery whose value is 0 or 0.0 shows None. */
  lemma ZeroReadsAsNone(d: Device, idx: string, i: int)
    requires IsFirstWithId(d.peripheries, idx, i)
    requires "value" in d.peripheries[i].props
    requires d.peripheries[i].props["value"] == Int(0) || d.peripheries[i].props["value"] == Float(0.0)
    ensures PeripheryAvailable(d, idx)
    ensures PeripheryValue(d, idx) == Ok(None)
  {
  }

  /** A shown reading is within 0.05 of the vendor's float, and an int
      reading is shown as it is. */
  lemma ShownReadingIsClose(d: Device, idx: string, i: int)
    requires IsFirstWithId(d.peripheries, idx, i)
    requires "value" in d.peripheries[i].props
    requires PeripheryValue(d, idx).Ok? && PeripheryValue(d, idx).value.Some?
    ensures var v := d.peripheries[i].props["value"];
            var w := PeripheryValue(d, idx).value.value;
            && Truthy(v)
            && (v.Int? ==> w == v)
            && (v.Float? ==> w.Float? && -0.05 <= w.r - v.r <= 0.05)
  {
  }
}
