/** The settings switches (bypass, cooling, heating, radon protection): a
    projection of `settings.extended_properties[idx]` onto the two strings
    of `FuturaEnabledEnum`, and the writes that set them. */
module Switch {
  import opened Python
  import opened Futura

  const Enabled := "enabled"
  const Disabled := "disabled"

  /** The strings `map(str, FuturaEnabledEnum)` lists. */
  const EnabledEnum: seq<Value> := [Str(Enabled), Str(Disabled)]

  /** The switch entities the platform creates. */
  const SwitchIds := ["bypass", "cooling", "heating", "radon_protection"]

  /** What a switch shows for a raw setting value. */
  datatype Reading = On | Off | Unavailable

  function ReadingOf(v: Value): (r: Reading)
    ensures r == On <==> v == Str(Enabled)
    ensures r == Off <==> v == Str(Disabled)
    ensures r == Unavailable <==> v != Str(Enabled) && v != Str(Disabled)
  {
    PyEqString(v, Enabled);
    PyEqString(v, Disabled);
    if PyEq(v, Str(Enabled)) then On else if PyEq(v, Str(Disabled)) then Off else Unavailable
  }

  /** `value`: the raw setting; KeyError when the document lacks it. */
  function SettingValue(d: Device, idx: string): (r: Result<Value>)
    ensures r.Ok? <==> idx in d.settings
    ensures r.Ok? ==> r.value == d.settings[idx]
    ensures r.Err? ==> r.error == KeyError
  {
    Lookup(d.settings, idx)
  }

  /** `is_on`: the setting equals "enabled". */
  function IsOn(d: Device, idx: string): (r: Result<bool>)
    ensures r.Ok? <==> idx in d.settings
    ensures r == Ok(true) <==> idx in d.settings && d.settings[idx] == Str(Enabled)
    ensures r.Err? ==> r.error == KeyError
  {
    var v :- SettingValue(d, idx);
    PyEqString(v, Enabled);
    Ok(PyEq(v, Str(Enabled)))
  }

  /** `available`: the setting is one of the enumeration's strings. A
      missing setting raises rather than reading as unavailable. */
  function Available(d: Device, idx: string): (r: Result<bool>)
    ensures r.Ok? <==> idx in d.settings
    ensures r == Ok(true) <==> idx in d.settings && (d.settings[idx] == Str(Enabled) || d.settings[idx] == Str(Disabled))
    ensures r.Err? ==> r.error == KeyError
  {
    var v :- SettingValue(d, idx);
    PyEqString(v, Enabled);
    PyEqString(v, Disabled);
    assert PyIn(v, EnabledEnum) <==> PyEq(v, EnabledEnum[0]) || PyEq(v, EnabledEnum[1]);
    Ok(PyIn(v, EnabledEnum))
  }

  /** `async_turn_on`: writes a value that reads as on. */
  function TurnOn(idx: string): (w: Write)
    ensures w.SettingWrite? && w.property == idx && ReadingOf(w.value) == On
  {
    SettingWrite(idx, Str(Enabled))
  }

  /** `async_turn_off`: writes a value that reads as off. */
  function TurnOff(idx: string): (w: Write)
    ensures w.SettingWrite? && w.property == idx && ReadingOf(w.value) == Off
  {
    SettingWrite(idx, Str(Disabled))
  }

  /** `is_on` and `available` are the three-way reading of the setting. */
  lemma ReadingAgrees(d: Device, idx: string)
    requires idx in d.settings
    ensures IsOn(d, idx) == Ok(ReadingOf(d.settings[idx]) == On)
    ensures Available(d, idx) == Ok(ReadingOf(d.settings[idx]) != Unavailable)
  {
  }

  /** A switch that is on is available. */
  lemma OnImpliesAvailable(d: Device, idx: string)
    ensures IsOn(d, idx) == Ok(true) ==> Available(d, idx) == Ok(true)
  {
  }

  /** Any other string, such as "pending", is unavailable and off. */
  lemma UnrecognisedIsUnavailable(d: Device, idx: string)
    requires idx in d.settings && d.settings[idx] == Str("pending")
    ensures Available(d, idx) == Ok(false) && IsOn(d, idx) == Ok(false)
  {
  }

  /** Once the vendor stores what a write sent, the switch reads back
      what was asked for: on after turning on, off after turning off. */
  lemma WriteThenRead(d: Device, idx: string)
    ensures var on := d.(settings := d.settings[idx := TurnOn(idx).value]);
            IsOn(on, idx) == Ok(true) && Available(on, idx) == Ok(true)
    ensures var off := d.(settings := d.settings[idx := TurnOff(idx).value]);
            IsOn(off, idx) == Ok(false) && Available(off, idx) == Ok(true)
  {
  }
}
