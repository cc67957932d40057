/** The two select entities: fan power, whose options are derived from the
    control's `min`/`max`, and humidity, whose options are the vendor's
    `{id, title}` list. */
module Select {
  import opened Python
  import opened Futura

  const FanPowerId := "control_fan_power"
  const HumidityId := "control_humidity"

  // ---------------------------------------------------------------------
  // Fan power: labels

  /** The label of fan level `n`: "off" for 0, its decimal text otherwise. */
  function Label(n: int): string {
    if n == 0 then "off" else Decimal(n)
  }

  /** Reads a label back as a fan level; "auto" and other text are no level. */
  function LevelOfLabel(text: string): Option<int> {
    if text == "off" then Some(0) else ParseInt(text)
  }

  lemma LabelRoundTrip(n: int)
    ensures LevelOfLabel(Label(n)) == Some(n)
  {
    assert ParseInt("off") == None;
    if n != 0 {
      DecimalRoundTrip(n);
    }
  }

  lemma AutoIsNoLevel()
    ensures LevelOfLabel("auto") == None
  {
    assert !IsDigit("auto"[0]);
  }

  /** The option list for levels `lo` up to but excluding `hi`, then "auto". */
  function RangeOptions(lo: int, hi: int): (opts: seq<string>)
    ensures |opts| == (if lo <= hi then hi - lo else 0) + 1
    ensures opts[|opts| - 1] == "auto"
  {
    seq(if lo <= hi then hi - lo else 0, i => Label(lo + i)) + ["auto"]
  }

  /** Option `i` before "auto" names level `lo + i`; "auto" names none. */
  lemma RangeOptionsLevels(lo: int, hi: int)
    ensures forall i :: 0 <= i < |RangeOptions(lo, hi)| - 1 ==> LevelOfLabel(RangeOptions(lo, hi)[i]) == Some(lo + i)
    ensures LevelOfLabel(RangeOptions(lo, hi)[|RangeOptions(lo, hi)| - 1]) == None
  {
    var opts := RangeOptions(lo, hi);
    forall i | 0 <= i < |opts| - 1 ensures LevelOfLabel(opts[i]) == Some(lo + i) {
      LabelRoundTrip(lo + i);
    }
    AutoIsNoLevel();
  }

  /** No option appears twice. */
  lemma RangeOptionsDistinct(lo: int, hi: int)
    ensures Distinct(RangeOptions(lo, hi))
  {
    var opts := RangeOptions(lo, hi);
    RangeOptionsLevels(lo, hi);
    forall i, j | 0 <= i < j < |opts| ensures opts[i] != opts[j] {
      assert LevelOfLabel(opts[i]) == Some(lo + i);
      assert LevelOfLabel(opts[j]) != LevelOfLabel(opts[i]);
    }
  }

  /** `range` excludes its upper bound: level `hi` is never offered. */
  lemma UpperBoundNotOffered(lo: int, hi: int)
    ensures Label(hi) !in RangeOptions(lo, hi)
  {
    var opts := RangeOptions(lo, hi);
    RangeOptionsLevels(lo, hi);
    LabelRoundTrip(hi);
    forall i | 0 <= i < |opts| ensures opts[i] != Label(hi) {
      assert LevelOfLabel(opts[i]) != Some(hi);
    }
  }

  /** "off" is offered exactly when level 0 lies in `[lo, hi)`. */
  lemma OffOffered(lo: int, hi: int)
    ensures "off" in RangeOptions(lo, hi) <==> lo <= 0 < hi
  {
    var opts := RangeOptions(lo, hi);
    RangeOptionsLevels(lo, hi);
    if lo <= 0 < hi {
      var i := -lo;
      assert i < |opts| - 1 && opts[i] == Label(lo + i);
    }
    if "off" in opts {
      var i :| 0 <= i < |opts| && opts[i] == "off";
      assert LevelOfLabel(opts[i]) == Some(0);
    }
  }

  // ---------------------------------------------------------------------
  // Fan power: the entity over its control record

  /** `options`: `range(min, max)` labelled, then "auto". Both bounds are
      looked up before `range` checks that they are ints. */
  function OptionsOf(c: Record): (r: Result<seq<string>>)
    ensures r.Ok? <==> "min" in c.props && "max" in c.props
                       && RangeBound(c.props["min"]).Ok? && RangeBound(c.props["max"]).Ok?
    ensures r.Ok? ==> r.value == RangeOptions(RangeBound(c.props["min"]).value, RangeBound(c.props["max"]).value)
    ensures r.Ok? ==> |r.value| >= 1 && r.value[|r.value| - 1] == "auto" && Distinct(r.value)
    ensures "min" !in c.props || "max" !in c.props ==> r == Err(KeyError)
    ensures ("min" in c.props && "max" in c.props && !(RangeBound(c.props["min"]).Ok? && RangeBound(c.props["max"]).Ok?))
            ==> r == Err(TypeError)
    ensures r.Err? ==> r.error in {KeyError, TypeError}
  {
    var min :- Lookup(c.props, "min");
    var max :- Lookup(c.props, "max");
    var lo :- RangeBound(min);
    var hi :- RangeBound(max);
    RangeOptionsDistinct(lo, hi);
    Ok(RangeOptions(lo, hi))
  }

  /** `current_option`: the option at position `int(value)` of the option
      list, indexed by the raw value (not `value - min`), with Python's
      negative indices counting from the end. */
  function CurrentOptionOf(c: Record): (r: Result<string>)
    ensures OptionsOf(c).Err? ==> r == Err(OptionsOf(c).error)
    ensures r.Ok? ==> OptionsOf(c).Ok? && r.value in OptionsOf(c).value
    ensures OptionsOf(c).Ok? && "value" !in c.props ==> r == Err(KeyError)
    ensures OptionsOf(c).Ok? && "value" in c.props && PyInt(c.props["value"]).Ok? ==>
              r == PyIndex(OptionsOf(c).value, PyInt(c.props["value"]).value)
    ensures OptionsOf(c).Ok? && "value" in c.props && PyInt(c.props["value"]).Err? ==>
              r == Err(PyInt(c.props["value"]).error)
  {
    var opts :- OptionsOf(c);
    var v :- Lookup(c.props, "value");
    var k :- PyInt(v);
    PyIndex(opts, k)
  }

  /** `async_select_option`: `set_control("fan_power", options.index(option))`;
      an option not in the list raises ValueError. */
  function SelectOn(c: Record, option: string): (r: Result<Write>)
    ensures OptionsOf(c).Err? ==> r == Err(OptionsOf(c).error)
    ensures OptionsOf(c).Ok? ==> (r.Ok? <==> option in OptionsOf(c).value)
    ensures OptionsOf(c).Ok? && option !in OptionsOf(c).value ==> r == Err(ValueError)
    ensures r.Ok? ==> var opts := OptionsOf(c).value;
                      && r.value.ControlWrite? && r.value.control == "fan_power" && r.value.value.Int?
                      && 0 <= r.value.value.i < |opts| && opts[r.value.value.i] == option
                      && forall j :: 0 <= j < r.value.value.i ==> opts[j] != option
  {
    var opts :- OptionsOf(c);
    match FirstIndex(opts, (o: string) => o == option)
    case None => Err(ValueError)
    case Some(k) => Ok(ControlWrite("fan_power", Int(k)))
  }

  /** The control's `min`, `max` and `value` are the ints `lo`, `hi`, `n`. */
  ghost predicate FanSettings(c: Record, lo: int, hi: int, n: int) {
    && "min" in c.props && c.props["min"] == Int(lo)
    && "max" in c.props && c.props["max"] == Int(hi)
    && "value" in c.props && c.props["value"] == Int(n)
  }

  /** The current option of raw value `n` is the label of level `lo + n`
      (or "auto" at `n == hi - lo`), so it names the vendor's level only
      when `min` is 0. */
  lemma CurrentOptionOfRawValue(c: Record, lo: int, hi: int, n: int)
    requires FanSettings(c, lo, hi, n)
    requires lo <= hi && 0 <= n <= hi - lo
    ensures CurrentOptionOf(c) == Ok(if n == hi - lo then "auto" else Label(lo + n))
  {
  }

  /** With `min == 0` the current option names the current level; the value
      `max` reads as "auto". */
  lemma CurrentOptionNamesLevel(c: Record, hi: int, n: int)
    requires FanSettings(c, 0, hi, n)
    requires 0 <= n <= hi
    ensures n < hi ==> CurrentOptionOf(c) == Ok(Label(n)) && LevelOfLabel(CurrentOptionOf(c).value) == Some(n)
    ensures n == hi ==> CurrentOptionOf(c) == Ok("auto")
  {
    CurrentOptionOfRawValue(c, 0, hi, n);
    LabelRoundTrip(n);
  }

  /** With `min == 1` the raw-value indexing shows the next level:
      levels 1..3 and value 1 read as "2". */
  lemma OffsetMinimumShiftsLabel(c: Record)
    requires FanSettings(c, 1, 4, 1)
    ensures CurrentOptionOf(c) == Ok("2")
  {
    CurrentOptionOfRawValue(c, 1, 4, 1);
    assert Label(2) == "2";
  }

  /** Value -1 reads as "auto" (Python's negative index). */
  lemma NegativeValueCountsFromEnd(c: Record, lo: int, hi: int)
    requires FanSettings(c, lo, hi, -1)
    ensures CurrentOptionOf(c) == Ok("auto")
  {
  }

  /** Selecting the option at position `i` sends `i` itself: for levels
      before "auto" that is `level - min`, and "auto" sends `max - min`. */
  lemma SelectSendsPosition(c: Record, lo: int, hi: int, i: int)
    requires "min" in c.props && c.props["min"] == Int(lo)
    requires "max" in c.props && c.props["max"] == Int(hi)
    requires lo <= hi && 0 <= i <= hi - lo
    ensures SelectOn(c, RangeOptions(lo, hi)[i]) == Ok(ControlWrite("fan_power", Int(i)))
  {
    RangeOptionsDistinct(lo, hi);
  }

  /** Round trip: selecting the current option sends back `int(value)`,
      for every value that indexes the list from the front. */
  lemma FanPowerRoundTrip(c: Record)
    requires CurrentOptionOf(c).Ok?
    requires "value" in c.props && PyInt(c.props["value"]).Ok? && PyInt(c.props["value"]).value >= 0
    ensures SelectOn(c, CurrentOptionOf(c).value) == Ok(ControlWrite("fan_power", Int(PyInt(c.props["value"]).value)))
  {
    var opts := OptionsOf(c).value;
    var k := PyInt(c.props["value"]).value;
    assert CurrentOptionOf(c) == Ok(opts[k]);
    var w := SelectOn(c, opts[k]);
    assert w.Ok?;
    assert opts[w.value.value.i] == opts[k];
  }

  // ---------------------------------------------------------------------
  // Fan power: the entity over the device document

  /** `FuturaControlFanPowerEntity.options`: IndexError without a fan-power
      control, otherwise the options of the first one. */
  function FanPowerOptions(d: Device): (r: Result<seq<string>>)
    ensures FindControl(d, FanPowerId).Err? ==> r == Err(IndexError)
    ensures forall i :: IsFirstWithId(d.controls, FanPowerId, i) ==> r == OptionsOf(d.controls[i])
    ensures r.Ok? ==> |r.value| >= 1 && r.value[|r.value| - 1] == "auto" && Distinct(r.value)
  {
    var c :- FindControl(d, FanPowerId);
    OptionsOf(c)
  }

  /** `FuturaControlFanPowerEntity.current_option`. */
  function FanPowerCurrentOption(d: Device): (r: Result<string>)
    ensures FindControl(d, FanPowerId).Err? ==> r == Err(IndexError)
    ensures forall i :: IsFirstWithId(d.controls, FanPowerId, i) ==> r == CurrentOptionOf(d.controls[i])
    ensures r.Ok? ==> FanPowerOptions(d).Ok? && r.value in FanPowerOptions(d).value
  {
    var c :- FindControl(d, FanPowerId);
    CurrentOptionOf(c)
  }

  /** `FuturaControlFanPowerEntity.async_select_option`. */
  function FanPowerSelectOption(d: Device, option: string): (r: Result<Write>)
    ensures FindControl(d, FanPowerId).Err? ==> r == Err(IndexError)
    ensures forall i :: IsFirstWithId(d.controls, FanPowerId, i) ==> r == SelectOn(d.controls[i], option)
    ensures FanPowerOptions(d).Ok? ==> (r.Ok? <==> option in FanPowerOptions(d).value)
  {
    var c :- FindControl(d, FanPowerId);
    SelectOn(c, option)
  }

  // ---------------------------------------------------------------------
  // Humidity

  /** Every element is an object holding `key`. */
  ghost predicate AllHave(items: seq<Value>, key: string) {
    forall j :: 0 <= j < |items| ==> items[j].Obj? && key in items[j].fields
  }

  /** The vendor's `options` list of the control. */
  function OptionItems(c: Record): (r: Result<seq<Value>>)
    ensures r.Ok? <==> "options" in c.props && c.props["options"].Arr?
    ensures r.Ok? ==> r.value == c.props["options"].items
  {
    var raw :- Lookup(c.props, "options");
    Elements(raw)
  }

  /** `options`: the `title` of every vendor option, in vendor order. */
  function TitlesOf(c: Record): (r: Result<seq<Value>>)
    ensures r.Ok? <==> OptionItems(c).Ok? && AllHave(OptionItems(c).value, "title")
    ensures r.Ok? ==> var items := OptionItems(c).value;
                      |r.value| == |items| && forall j :: 0 <= j < |items| ==> r.value[j] == items[j].fields["title"]
  {
    var items :- OptionItems(c);
    MapAll(items, (o: Value) => Field(o, "title"))
  }

  /** The filter condition of `current_option`: `option["id"]` is
      evaluated before `value` is looked up. */
  function IdMatches(c: Record, o: Value): Result<bool> {
    var id :- Field(o, "id");
    var v :- Lookup(c.props, "value");
    Ok(PyEq(id, v))
  }

  /** `k` is the first option whose id is `==` to `v`. */
  ghost predicate IsFirstIdMatch(items: seq<Value>, v: Value, k: int)
    requires AllHave(items, "id")
  {
    0 <= k < |items| && PyEq(items[k].fields["id"], v)
    && forall j :: 0 <= j < k ==> !PyEq(items[j].fields["id"], v)
  }

  /** `current_option`: the title of the first option whose id equals the
      control's value; IndexError when none does. */
  function CurrentTitleOf(c: Record): (r: Result<Value>)
    ensures r.Ok? ==> && OptionItems(c).Ok? && AllHave(OptionItems(c).value, "id") && "value" in c.props
                      && exists k :: IsFirstIdMatch(OptionItems(c).value, c.props["value"], k)
                                     && Field(OptionItems(c).value[k], "title") == Ok(r.value)
    ensures OptionItems(c).Ok? && AllHave(OptionItems(c).value, "id") && "value" in c.props
            && (forall j :: 0 <= j < |OptionItems(c).value| ==> !PyEq(OptionItems(c).value[j].fields["id"], c.props["value"]))
            ==> r == Err(IndexError)
  {
    var items :- OptionItems(c);
    var k :- FirstPassing(items, (o: Value) => IdMatches(c, o));
    assert forall j :: 0 <= j < |items| ==> IdMatches(c, items[j]).Ok?;
    Field(items[k], "title")
  }

  /** The filter condition of `async_select_option`. */
  function TitleMatches(o: Value, option: string): Result<bool> {
    var t :- Field(o, "title");
    Ok(PyEq(t, Str(option)))
  }

  /** `async_select_option`: `set_control("humidity", id)` for the first
      option whose title is `option`. */
  function SelectTitleOn(c: Record, option: string): (r: Result<Write>)
    ensures r.Ok? ==> && OptionItems(c).Ok? && AllHave(OptionItems(c).value, "title")
                      && r.value.ControlWrite? && r.value.control == "humidity"
                      && var items := OptionItems(c).value;
                         exists k :: && 0 <= k < |items| && items[k].fields["title"] == Str(option)
                                     && (forall j :: 0 <= j < k ==> items[j].fields["title"] != Str(option))
                                     && Field(items[k], "id") == Ok(r.value.value)
    ensures OptionItems(c).Ok? && AllHave(OptionItems(c).value, "title")
            && (forall j :: 0 <= j < |OptionItems(c).value| ==> OptionItems(c).value[j].fields["title"] != Str(option))
            ==> r == Err(IndexError)
    ensures OptionItems(c).Err? ==> r == Err(OptionItems(c).error)
    ensures && OptionItems(c).Ok? && AllHave(OptionItems(c).value, "title") && AllHave(OptionItems(c).value, "id")
            && (exists j :: 0 <= j < |OptionItems(c).value| && OptionItems(c).value[j].fields["title"] == Str(option))
            ==> r.Ok?
  {
    var items :- OptionItems(c);
    var k :- FirstPassing(items, (o: Value) => TitleMatches(o, option));
    assert forall j :: 0 <= j < |items| ==> TitleMatches(items[j], option).Ok?;
    forall j | 0 <= j < |items| ensures TitleMatches(items[j], option) == Ok(items[j].fields["title"] == Str(option)) {
      PyEqString(items[j].fields["title"], option);
    }
    var id :- Field(items[k], "id");
    Ok(ControlWrite("humidity", id))
  }

  /** Round trip: when titles are unique, selecting the current title
      sends an id `==` to the current value. */
  lemma HumidityRoundTrip(c: Record, title: string)
    requires CurrentTitleOf(c) == Ok(Str(title))
    requires TitlesOf(c).Ok? && Distinct(TitlesOf(c).value)
    ensures SelectTitleOn(c, title).Ok?
    ensures SelectTitleOn(c, title).value.control == "humidity"
    ensures PyEq(SelectTitleOn(c, title).value.value, c.props["value"])
  {
    var items := OptionItems(c).value;
    var titles := TitlesOf(c).value;
    var k :| IsFirstIdMatch(items, c.props["value"], k) && Field(items[k], "title") == Ok(Str(title));
    forall j | 0 <= j < |items| ensures TitleMatches(items[j], title) == Ok(j == k) {
      PyEqString(items[j].fields["title"], title);
      assert titles[j] == items[j].fields["title"];
    }
    assert FirstPassing(items, (o: Value) => TitleMatches(o, title)) == Ok(k);
  }

  /** When the value is literally one option's id and the options are well
      formed, the current title is defined. */
  lemma CurrentTitleDefined(c: Record, k: int)
    requires OptionItems(c).Ok? && AllHave(OptionItems(c).value, "id") && AllHave(OptionItems(c).value, "title")
    requires "value" in c.props
    requires 0 <= k < |OptionItems(c).value| && PyEq(OptionItems(c).value[k].fields["id"], c.props["value"])
    ensures CurrentTitleOf(c).Ok?
  {
    var items := OptionItems(c).value;
    assert IdMatches(c, items[k]) == Ok(true);
    assert forall j :: 0 <= j < |items| ==> IdMatches(c, items[j]).Ok?;
  }

  /** `FuturaControlHumidityEntity.options`. */
  function HumidityOptions(d: Device): (r: Result<seq<Value>>)
    ensures FindControl(d, HumidityId).Err? ==> r == Err(IndexError)
    ensures forall i :: IsFirstWithId(d.controls, HumidityId, i) ==> r == TitlesOf(d.controls[i])
  {
    var c :- FindControl(d, HumidityId);
    TitlesOf(c)
  }

  /** `FuturaControlHumidityEntity.current_option`. */
  function HumidityCurrentOption(d: Device): (r: Result<Value>)
    ensures FindControl(d, HumidityId).Err? ==> r == Err(IndexError)
    ensures forall i :: IsFirstWithId(d.controls, HumidityId, i) ==> r == CurrentTitleOf(d.controls[i])
  {
    var c :- FindControl(d, HumidityId);
    CurrentTitleOf(c)
  }

  /** `FuturaControlHumidityEntity.async_select_option`. */
  function HumiditySelectOption(d: Device, option: string): (r: Result<Write>)
    ensures FindControl(d, HumidityId).Err? ==> r == Err(IndexError)
    ensures forall i :: IsFirstWithId(d.controls, HumidityId, i) ==> r == SelectTitleOn(d.controls[i], option)
  {
    var c :- FindControl(d, HumidityId);
    SelectTitleOn(c, option)
  }
}
