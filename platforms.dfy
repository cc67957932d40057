/** The entities the six platforms create, identified by their `idx`. */
module Platforms {
  import opened Python
  import opened Futura
  import Select
  import Switch
  import Sensor
  import BinarySensor
  import Number

  /** Every entity's unique id, platform by platform. */
  const UniqueIds: seq<string> :=
    [Select.FanPowerId, Select.HumidityId]
    + Switch.SwitchIds
    + Sensor.SummarySensorIds + Sensor.PeripherySensorIds
    + BinarySensor.BinarySensorIds
    + [Number.TemperatureId]

  /** The entity names the integration registers. */
  function EntityNames(): (names: seq<string>)
    ensures |names| == |UniqueIds|
    ensures forall i :: 0 <= i < |names| ==> UniqueIdOfName(names[i]) == Some(UniqueIds[i])
  {
    var names := seq(|UniqueIds|, i requires 0 <= i < |UniqueIds| => EntityName(UniqueIds[i]));
    forall i | 0 <= i < |names| ensures UniqueIdOfName(names[i]) == Some(UniqueIds[i]) {
      EntityNameRoundTrip(UniqueIds[i]);
    }
    names
  }

  /** No two entities share a unique id. */
  lemma UniqueIdsDistinct()
    ensures |UniqueIds| == 16
    ensures Distinct(UniqueIds)
  {
  }

  /** Hence no two entities share a name. */
  lemma EntityNamesDistinct()
    ensures Distinct(EntityNames())
  {
    UniqueIdsDistinct();
    var names := EntityNames();
    forall i, j | 0 <= i < j < |names|
      ensures names[i] != names[j]
    {
      EntityNameInjective(UniqueIds[i], UniqueIds[j]);
    }
  }
}
