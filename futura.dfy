/** The vendor client (`Futura`) and what every entity shares: the device
    document it polls, the central unit it extracts from it, the service it
    selects, the two `setDevice` request bodies it sends, and the control
    lookup and naming of the entity base classes. */
module Futura {
  import opened Python

  /** The integration's domain, prefix of every entity name. */
  const Domain := "jablotron_futura"
  /** The vendor's namespace for Futura units. */
  const Namespace := "futura2"

  /** An element of `data.controls` or of `peripheries`: its `id` and its
      `extended_properties` object. */
  datatype Record = Record(id: Value, props: JsonObject)

  /** The `device` object of the getDevice response, as the projections read
      it: the identification fields, `details`, `rooms`, `summary`,
      `data.controls`, `settings.extended_properties` and `peripheries`. */
  datatype Device = Device(
    id: Value,
    deviceType: Value,
    details: JsonObject,
    rooms: seq<JsonObject>,
    summary: JsonObject,
    controls: seq<Record>,
    settings: JsonObject,
    peripheries: seq<Record>)

  /** The ventilation controller's identity, kept by the client between polls. */
  datatype CentralUnit = CentralUnit(
    serviceId: Value,
    model: Value,
    hwVersion: Value,
    fwVersion: Value,
    serialNo: Value,
    roomId: Value)

  /** A write an entity asks the client for: `set_control(control, value)` or
      `set_setting_extended_property(property, value)`. */
  datatype Write =
    | ControlWrite(control: string, value: Value)
    | SettingWrite(property: string, value: Value)

  // ---------------------------------------------------------------------
  // Authorisation and service selection

  /** The status check after the login request: anything but 200 raises
      `ApiAuthError`. */
  function Authorize(status: int): (r: Result<()>)
    ensures r.Ok? <==> status == 200
    ensures r.Err? ==> r.error == AuthError
  {
    if status != 200 then Err(AuthError) else Ok(())
  }

  /** The filter condition on one entry of the service list, evaluated as
      Python's short-circuit `and`: a missing key raises KeyError, a
      non-string `service-type` has no `lower()` (AttributeError). */
  function IsFuturaService(s: JsonObject): (r: Result<bool>)
    ensures r == Ok(true) <==>
      && "visible" in s && Truthy(s["visible"])
      && "status" in s && s["status"] == Str("ENABLED")
      && "service-type" in s && s["service-type"].Str? && Lower(s["service-type"].s) == Namespace
    ensures "visible" !in s ==> r == Err(KeyError)
    ensures "visible" in s && !Truthy(s["visible"]) ==> r == Ok(false)
    ensures "visible" in s && Truthy(s["visible"]) && "status" !in s ==> r == Err(KeyError)
    ensures "visible" in s && Truthy(s["visible"]) && "status" in s && s["status"] != Str("ENABLED") ==> r == Ok(false)
    ensures "visible" in s && Truthy(s["visible"]) && "status" in s && s["status"] == Str("ENABLED")
            ==> && ("service-type" !in s ==> r == Err(KeyError))
                && ("service-type" in s && !s["service-type"].Str? ==> r == Err(AttributeError))
                && ("service-type" in s && s["service-type"].Str? ==> r.Ok?)
    ensures r.Err? ==> r.error in {KeyError, AttributeError}
  {
    if "visible" !in s then Err(KeyError)
    else if !Truthy(s["visible"]) then Ok(false)
    else if "status" !in s then Err(KeyError)
    else if !PyEq(s["status"], Str("ENABLED")) then (PyEqString(s["status"], "ENABLED"); Ok(false))
    else if "service-type" !in s then Err(KeyError)
    else if !s["service-type"].Str? then Err(AttributeError)
    else (PyEqString(s["status"], "ENABLED"); Ok(Lower(s["service-type"].s) == Namespace))
  }

  /** A service qualifies when it is visible, exactly "ENABLED" and of the
      Futura type in any letter case. */
  ghost predicate Qualifies(s: JsonObject) {
    && "visible" in s && Truthy(s["visible"])
    && "status" in s && s["status"] == Str("ENABLED")
    && "service-type" in s && s["service-type"].Str? && MatchesIgnoringCase(s["service-type"].s, Namespace)
  }

  /** `t` spells `u` (a lower-case word) with any letters in upper case. */
  ghost predicate MatchesIgnoringCase(t: string, u: string) {
    |t| == |u| && forall i :: 0 <= i < |t| ==> t[i] == u[i] || LowerChar(t[i]) == u[i]
  }

  /** Lowering and comparing with "futura2" accepts exactly its case variants. */
  lemma {:induction false} LowerMatchesNamespace(t: string)
    ensures Lower(t) == Namespace <==> MatchesIgnoringCase(t, Namespace)
  {
    if MatchesIgnoringCase(t, Namespace) {
      forall i | 0 <= i < |t| ensures Lower(t)[i] == Namespace[i] {
        assert t[i] == Namespace[i] ==> LowerChar(t[i]) == t[i];
      }
    }
    if Lower(t) == Namespace {
      forall i | 0 <= i < |t| ensures t[i] == Namespace[i] || LowerChar(t[i]) == Namespace[i] {
        assert Lower(t)[i] == LowerChar(t[i]);
      }
    }
  }

  /** The filter condition accepts a service exactly when it qualifies. */
  lemma QualifiesIffAccepted(s: JsonObject)
    ensures IsFuturaService(s) == Ok(true) <==> Qualifies(s)
  {
    if "service-type" in s && s["service-type"].Str? {
      LowerMatchesNamespace(s["service-type"].s);
    }
  }

  /** `list(filter(IsFuturaService, services))[0]`: the first qualifying
      service; with none, IndexError (never `ServiceNotFoundError`). */
  function SelectService(services: seq<JsonObject>): (r: Result<JsonObject>)
    ensures r.Ok? ==> Qualifies(r.value)
    ensures r.Ok? ==> exists i :: 0 <= i < |services| && r.value == services[i]
                                  && forall j :: 0 <= j < i ==> IsFuturaService(services[j]) == Ok(false)
    ensures r.Ok? <==> (forall j :: 0 <= j < |services| ==> IsFuturaService(services[j]).Ok?)
                       && exists j :: 0 <= j < |services| && Qualifies(services[j])
    ensures (forall j :: 0 <= j < |services| ==> IsFuturaService(services[j]) == Ok(false)) ==> r == Err(IndexError)
    ensures forall k :: 0 <= k < |services| && IsFuturaService(services[k]).Err?
                        && (forall j :: 0 <= j < k ==> IsFuturaService(services[j]).Ok?)
                        ==> r == Err(IsFuturaService(services[k]).error)
    ensures r.Err? ==> r.error in {IndexError, KeyError, AttributeError}
  {
    forall j | 0 <= j < |services| ensures IsFuturaService(services[j]) == Ok(true) <==> Qualifies(services[j]) {
      QualifiesIffAccepted(services[j]);
    }
    match FirstPassing(services, IsFuturaService)
    case Err(e) => Err(e)
    case Ok(i) =>
      LowerMatchesNamespace(services[i]["service-type"].s);
      Ok(services[i])
  }

  /** The `FuturaCentralUnit` built from the device document; its fields are
      read in the order the source evaluates its arguments, so the first
      missing one decides the exception. */
  function ExtractCentralUnit(d: Device): (r: Result<CentralUnit>)
    ensures r.Ok? <==> "hw_revision" in d.details && "fw_version" in d.details && "serial_no" in d.details
                       && |d.rooms| > 0 && "id" in d.rooms[0]
    ensures r.Ok? ==> r.value.serviceId == d.id && r.value.model == d.deviceType
    ensures r.Ok? ==> r.value.hwVersion == d.details["hw_revision"] && r.value.fwVersion == d.details["fw_version"]
                      && r.value.serialNo == d.details["serial_no"]
    ensures r.Ok? ==> r.value.roomId == d.rooms[0]["id"]
    ensures "hw_revision" !in d.details || "fw_version" !in d.details || "serial_no" !in d.details ==> r == Err(KeyError)
    ensures "hw_revision" in d.details && "fw_version" in d.details && "serial_no" in d.details && d.rooms == [] ==> r == Err(IndexError)
  {
    if "hw_revision" !in d.details || "fw_version" !in d.details || "serial_no" !in d.details then Err(KeyError)
    else if d.rooms == [] then Err(IndexError)
    else if "id" !in d.rooms[0] then Err(KeyError)
    else Ok(CentralUnit(d.id, d.deviceType, d.details["hw_revision"], d.details["fw_version"],
                        d.details["serial_no"], d.rooms[0]["id"]))
  }

  // ---------------------------------------------------------------------
  // setDevice request bodies and their readers

  /** The JSON body of `set_control(control, value)`. */
  function ControlBody(cu: CentralUnit, control: string, value: Value): Value {
    Obj(map[
      "device" := Obj(map[
        "type" := Str(Namespace),
        "control" := Arr([Obj(map["manual" := Obj(map[control := value]), "room_id" := cu.roomId])]),
        "id" := cu.serviceId]),
      "system" := Str("IOS")])
  }

  /** The JSON body of `set_setting_extended_property(property, value)`. */
  function SettingBody(cu: CentralUnit, property: string, value: Value): Value {
    Obj(map[
      "device" := Obj(map[
        "type" := Str(Namespace),
        "settings" := Obj(map["extended_properties" := Obj(map[property := value])]),
        "id" := cu.serviceId]),
      "system" := Str("IOS")])
  }

  /** What a control write asks of the vendor. */
  datatype ControlRequest = ControlRequest(serviceId: Value, roomId: Value, control: string, value: Value)

  /** What a settings write asks of the vendor. */
  datatype SettingRequest = SettingRequest(serviceId: Value, property: string, value: Value)

  /** The one key of a one-entry object. */
  ghost function OnlyPair(v: Value): Option<(string, Value)> {
    if v.Obj? && |v.fields.Keys| == 1 then
      var k :| k in v.fields; Some((k, v.fields[k]))
    else None
  }

  /** Reads a Futura setDevice body that carries exactly one control entry
      with exactly one manual setting; `None` for any other shape. */
  ghost function ReadControlBody(body: Value): Option<ControlRequest> {
    if !(body.Obj? && body.fields.Keys == {"device", "system"} && body.fields["system"] == Str("IOS")) then None
    else
      var dev := body.fields["device"];
      if !(dev.Obj? && dev.fields.Keys == {"type", "control", "id"} && dev.fields["type"] == Str(Namespace)) then None
      else
        var entries := dev.fields["control"];
        if !(entries.Arr? && |entries.items| == 1) then None
        else
          var entry := entries.items[0];
          if !(entry.Obj? && entry.fields.Keys == {"manual", "room_id"}) then None
          else match OnlyPair(entry.fields["manual"])
            case None => None
            case Some(kv) => Some(ControlRequest(dev.fields["id"], entry.fields["room_id"], kv.0, kv.1))
  }

  /** Reads a Futura setDevice body that sets exactly one extended
      property of `settings`; `None` for any other shape. */
  ghost function ReadSettingBody(body: Value): Option<SettingRequest> {
    if !(body.Obj? && body.fields.Keys == {"device", "system"} && body.fields["system"] == Str("IOS")) then None
    else
      var dev := body.fields["device"];
      if !(dev.Obj? && dev.fields.Keys == {"type", "settings", "id"} && dev.fields["type"] == Str(Namespace)) then None
      else
        var settings := dev.fields["settings"];
        if !(settings.Obj? && settings.fields.Keys == {"extended_properties"}) then None
        else match OnlyPair(settings.fields["extended_properties"])
          case None => None
          case Some(kv) => Some(SettingRequest(dev.fields["id"], kv.0, kv.1))
  }

  lemma OnlyPairOfSingleton(k: string, v: Value)
    ensures OnlyPair(Obj(map[k := v])) == Some((k, v))
  {
    var m := map[k := v];
    assert m.Keys == {k};
  }

  /** The control body holds one entry, scoped to the central unit's room,
      setting exactly `control` to `value`, addressed to the unit's service. */
  lemma ControlBodyRoundTrip(cu: CentralUnit, control: string, value: Value)
    ensures ReadControlBody(ControlBody(cu, control, value)) == Some(ControlRequest(cu.serviceId, cu.roomId, control, value))
  {
    OnlyPairOfSingleton(control, value);
    var entry := map["manual" := Obj(map[control := value]), "room_id" := cu.roomId];
    assert entry.Keys == {"manual", "room_id"};
    var dev := map["type" := Str(Namespace), "control" := Arr([Obj(entry)]), "id" := cu.serviceId];
    assert dev.Keys == {"type", "control", "id"};
  }

  /** The settings body sets exactly the pair `{property: value}` of the
      unit's service. */
  lemma SettingBodyRoundTrip(cu: CentralUnit, property: string, value: Value)
    ensures ReadSettingBody(SettingBody(cu, property, value)) == Some(SettingRequest(cu.serviceId, property, value))
  {
    OnlyPairOfSingleton(property, value);
    var dev := map["type" := Str(Namespace), "settings" := Obj(map["extended_properties" := Obj(map[property := value])]),
                   "id" := cu.serviceId];
    assert dev.Keys == {"type", "settings", "id"};
  }

  // ---------------------------------------------------------------------
  // The client

  /** The vendor API client. Its only state is the central unit of the last
      successful poll; the network answers are the parameters of `Sync`. */
  class Client {
    const username: string
    const password: string
    var centralUnit: Option<CentralUnit>

    constructor (username: string, password: string)
      ensures this.username == username && this.password == password
      ensures centralUnit == None
    {
      this.username := username;
      this.password := password;
      centralUnit := None;
    }

    /** One poll: the login status check, service selection over the
        service list, the lookup of the chosen service's id for the device
        request, and central-unit extraction from the device document. The
        central unit is replaced only when every step succeeds; the result
        is the device document. */
    method Sync(authStatus: int, services: seq<JsonObject>, device: Device) returns (r: Result<Device>)
      modifies this
      ensures authStatus != 200 ==> r == Err(AuthError)
      ensures r.Ok? <==> && authStatus == 200
                         && SelectService(services).Ok? && "service-id" in SelectService(services).value
                         && ExtractCentralUnit(device).Ok?
      ensures authStatus == 200 && SelectService(services).Err? ==> r == Err(SelectService(services).error)
      ensures authStatus == 200 && SelectService(services).Ok? && "service-id" !in SelectService(services).value
              ==> r == Err(KeyError)
      ensures (authStatus == 200 && SelectService(services).Ok? && "service-id" in SelectService(services).value
               && ExtractCentralUnit(device).Err?) ==> r == Err(ExtractCentralUnit(device).error)
      ensures r.Ok? ==> r.value == device && centralUnit == Some(ExtractCentralUnit(device).value)
      ensures r.Err? ==> centralUnit == old(centralUnit)
    {
      var auth := Authorize(authStatus);
      if auth.Err? {
        return Err(auth.error);
      }
      var service := SelectService(services);
      if service.Err? {
        return Err(service.error);
      }
      var serviceId := Lookup(service.value, "service-id");
      if serviceId.Err? {
        return Err(serviceId.error);
      }
      var cu := ExtractCentralUnit(device);
      if cu.Err? {
        return Err(cu.error);
      }
      centralUnit := Some(cu.value);
      r := Ok(device);
    }

    /** The body `set_control` posts; before the first successful poll
        there is no central unit and the attribute access raises. */
    function SetControl(control: string, value: Value): (r: Result<Value>)
      reads this
      ensures centralUnit.None? ==> r == Err(AttributeError)
      ensures centralUnit.Some? ==>
                r.Ok? && ReadControlBody(r.value) == Some(ControlRequest(centralUnit.value.serviceId, centralUnit.value.roomId, control, value))
    {
      match centralUnit
      case None => Err(AttributeError)
      case Some(cu) => ControlBodyRoundTrip(cu, control, value); Ok(ControlBody(cu, control, value))
    }

    /** The body `set_setting_extended_property` posts. */
    function SetSettingExtendedProperty(property: string, value: Value): (r: Result<Value>)
      reads this
      ensures centralUnit.None? ==> r == Err(AttributeError)
      ensures centralUnit.Some? ==>
                r.Ok? && ReadSettingBody(r.value) == Some(SettingRequest(centralUnit.value.serviceId, property, value))
    {
      match centralUnit
      case None => Err(AttributeError)
      case Some(cu) => SettingBodyRoundTrip(cu, property, value); Ok(SettingBody(cu, property, value))
    }
  }

  // ---------------------------------------------------------------------
  // Entity base classes

  /** The entity name: the domain, a dot, the unique id. */
  function EntityName(uniqueId: string): (r: string)
    ensures |r| == |Domain| + 1 + |uniqueId|
    ensures UniqueIdOfName(r) == Some(uniqueId)
  {
    var r := Domain + "." + uniqueId;
    assert r[..|Domain| + 1] == Domain + ".";
    assert r[|Domain| + 1..] == uniqueId;
    r
  }

  /** Recovers the unique id from an entity name. */
  function UniqueIdOfName(name: string): Option<string> {
    if |name| > |Domain| && name[..|Domain| + 1] == Domain + "." then Some(name[|Domain| + 1..]) else None
  }

  lemma EntityNameRoundTrip(uniqueId: string)
    ensures UniqueIdOfName(EntityName(uniqueId)) == Some(uniqueId)
  {
  }

  /** Different unique ids give different entity names. */
  lemma EntityNameInjective(a: string, b: string)
    ensures EntityName(a) == EntityName(b) ==> a == b
  {
    EntityNameRoundTrip(a);
    EntityNameRoundTrip(b);
  }

  /** `i` is the position of the first record whose id is the string `idx`. */
  ghost predicate IsFirstWithId(rs: seq<Record>, idx: string, i: int) {
    0 <= i < |rs| && rs[i].id == Str(idx) && forall j :: 0 <= j < i ==> rs[j].id != Str(idx)
  }

  /** The first record whose `id == idx` (the comparison is with a string,
      so plain string equality; see `PyEqString`). */
  function FirstWithId(rs: seq<Record>, idx: string): (r: Option<nat>)
    ensures r.Some? ==> IsFirstWithId(rs, idx, r.value)
    ensures r.None? <==> forall j :: 0 <= j < |rs| ==> rs[j].id != Str(idx)
  {
    FirstIndex(rs, (c: Record) => c.id == Str(idx))
  }

  /** `FuturaControlEntity.data()`: the first control with the entity's
      id, IndexError when there is none. */
  function FindControl(d: Device, idx: string): (r: Result<Record>)
    ensures r.Ok? <==> exists i :: 0 <= i < |d.controls| && d.controls[i].id == Str(idx)
    ensures forall i :: IsFirstWithId(d.controls, idx, i) ==> r == Ok(d.controls[i])
    ensures r.Err? ==> r.error == IndexError
  {
    match FirstWithId(d.controls, idx)
    case None => Err(IndexError)
    case Some(i) =>
      assert forall k :: IsFirstWithId(d.controls, idx, k) ==> k == i;
      Ok(d.controls[i])
  }

  /** `self.data()["extended_properties"][key]`. */
  function ControlProperty(d: Device, idx: string, key: string): (r: Result<Value>)
    ensures (forall i :: 0 <= i < |d.controls| ==> d.controls[i].id != Str(idx)) ==> r == Err(IndexError)
    ensures forall i :: IsFirstWithId(d.controls, idx, i) ==> r == Lookup(d.controls[i].props, key)
  {
    match FindControl(d, idx)
    case Err(e) => Err(e)
    case Ok(c) => Lookup(c.props, key)
  }

  /** `FuturaControlEntity.available` compares the bound method `self.data`,
      not its result, with None, so every control entity is always available,
      whether or not the document holds its control. */
  function ControlAvailable(d: Device, idx: string): (r: bool)
    ensures r
  {
    true
  }
}
