/** The target-temperature number entity: projections of the
    `control_temperature` record's `extended_properties`, and its write. */
module Number {
  import opened Python
  import opened Futura

  const TemperatureId := "control_temperature"

  /** No record carries the temperature control's id. */
  ghost predicate NoTemperatureControl(d: Device) {
    forall i :: 0 <= i < |d.controls| ==> d.controls[i].id != Str(TemperatureId)
  }

  /** `value`. */
  function CurrentValue(d: Device): (r: Result<Value>)
    ensures NoTemperatureControl(d) ==> r == Err(IndexError)
    ensures forall i :: IsFirstWithId(d.controls, TemperatureId, i) ==> r == Lookup(d.controls[i].props, "value")
  {
    ControlProperty(d, TemperatureId, "value")
  }

  /** `min_value`. */
  function MinValue(d: Device): (r: Result<Value>)
    ensures NoTemperatureControl(d) ==> r == Err(IndexError)
    ensures forall i :: IsFirstWithId(d.controls, TemperatureId, i) ==> r == Lookup(d.controls[i].props, "min")
  {
    ControlProperty(d, TemperatureId, "min")
  }

  /** `max_value`. */
  function MaxValue(d: Device): (r: Result<Value>)
    ensures NoTemperatureControl(d) ==> r == Err(IndexError)
    ensures forall i :: IsFirstWithId(d.controls, TemperatureId, i) ==> r == Lookup(d.controls[i].props, "max")
  {
    ControlProperty(d, TemperatureId, "max")
  }

  /** `step`. */
  function Step(d: Device): (r: Result<Value>)
    ensures NoTemperatureControl(d) ==> r == Err(IndexError)
    ensures forall i :: IsFirstWithId(d.controls, TemperatureId, i) ==> r == Lookup(d.controls[i].props, "step")
  {
    ControlProperty(d, TemperatureId, "step")
  }

  /** `unit_of_measurement`. */
  function Unit(d: Device): (r: Result<Value>)
    ensures NoTemperatureControl(d) ==> r == Err(IndexError)
    ensures forall i :: IsFirstWithId(d.controls, TemperatureId, i) ==> r == Lookup(d.controls[i].props, "units")
  {
    ControlProperty(d, TemperatureId, "units")
  }

  /** `async_set_value`: `set_control("temperature", v)`, `v` unchanged. */
  function SetValue(v: Value): (w: Write)
    ensures w.ControlWrite? && w.control == "temperature" && w.value == v
  {
    ControlWrite("temperature", v)
  }

  /** The set-value request addresses the central unit's room and service
      and carries the temperature exactly as given. */
  lemma SetValueRequest(cu: CentralUnit, v: Value)
    ensures ReadControlBody(ControlBody(cu, SetValue(v).control, SetValue(v).value))
            == Some(ControlRequest(cu.serviceId, cu.roomId, "temperature", v))
  {
    ControlBodyRoundTrip(cu, "temperature", v);
  }

  /** Once the vendor stores the written value in the first temperature
      record, `value` reads it back. */
  lemma WriteThenRead(d: Device, i: int, v: Value)
    requires IsFirstWithId(d.controls, TemperatureId, i)
    ensures var c := d.controls[i];
            var written := d.(controls := d.controls[i := c.(props := c.props["value" := SetValue(v).value])]);
            CurrentValue(written) == Ok(v)
  {
    var c := d.controls[i];
    var written := d.(controls := d.controls[i := c.(props := c.props["value" := v])]);
    assert IsFirstWithId(written.controls, TemperatureId, i);
  }
}
